/** What order creation guarantees over whole runs, read off the invariant and the sequential history. */
module OrderGuarantees {
  import opened Common
  import opened Uuid
  import opened Orders
  import opened OrdersInvariant
  import opened Linearizability
  import Directory

  ghost predicate Reachable(s: State) {
    exists init, acts :: Init(init) && Runs(init, acts) && s == Final(init, acts)
  }

  lemma ReachableInv(s: State)
    requires Reachable(s)
    ensures Inv(s)
  {
    var init, acts :| Init(init) && Runs(init, acts) && s == Final(init, acts);
    InitInv(init);
    InvRun(init, acts);
  }

  /** The response carries an order. */
  predicate HasOrder(r: Response) {
    r.Created? || r.Replayed?
  }

  predicate Answered(s: State, rid: Rid) {
    rid in s.reqs && s.reqs[rid].pc.Done?
  }

  /**
   Every key maps to one existing order and no two keys share one; every order was committed by exactly one request,
   which holds its key; a request that was answered 200, 409 or 422 left no order behind.
   */
  lemma TablesAreConsistent(s: State)
    requires Reachable(s)
    ensures forall k :: k in s.db.keys ==> s.db.keys[k] in s.db.orders
    ensures forall k, l :: k in s.db.keys && l in s.db.keys && s.db.keys[k] == s.db.keys[l] ==> k == l
    ensures forall id :: id in s.db.orders ==> id in s.issued && s.issued[id] in s.reqs
    ensures forall id :: id in s.db.orders ==>
              var call := s.reqs[s.issued[id]].call;
              && s.db.orders[id] == Order(id, Canonical(call.dto.userId), call.dto.amount, call.dto.description)
              && (forall k :: call.key == Some(k) && k != "" ==> k in s.db.keys && s.db.keys[k] == id)
    ensures forall k :: k in s.db.keys ==>
              k != "" && s.db.keys[k] in s.issued && s.issued[s.db.keys[k]] in s.reqs && s.reqs[s.issued[s.db.keys[k]]].call.key == Some(k)
    ensures forall i, j :: i in s.db.orders && j in s.db.orders && s.issued[i] == s.issued[j] ==> i == j
    ensures forall id :: id in s.db.orders && Answered(s, s.issued[id]) ==>
              s.reqs[s.issued[id]].pc.response.Created? || s.reqs[s.issued[id]].pc.response == Failed
  {
    hide IsUuid, Canonical, IsCanonical, RequestOk, EventOk, KeyLocked, OneEventPerRequest, CacheOk, IssuedOk;
    ReachableInv(s);
    assert forall k :: k in s.db.keys ==> KeyOk(s, k);
    assert forall id :: id in s.db.orders ==> OrderOk(s, id);
  }

  /** All requests that carry one key and are answered with an order get the same order, and only one gets a 201. */
  lemma OneOrderPerKey(s: State, r1: Rid, r2: Rid)
    requires Reachable(s) && Answered(s, r1) && Answered(s, r2)
    requires s.reqs[r1].call.key == s.reqs[r2].call.key && s.reqs[r1].call.key.Some? && s.reqs[r1].call.key.value != ""
    requires HasOrder(s.reqs[r1].pc.response) && HasOrder(s.reqs[r2].pc.response)
    ensures s.reqs[r1].pc.response.order.id == s.reqs[r2].pc.response.order.id
    ensures s.reqs[r1].pc.response.Created? && s.reqs[r2].pc.response.Created? ==> r1 == r2
    ensures Canonical(s.reqs[r1].call.dto.userId) == Canonical(s.reqs[r2].call.dto.userId)
  {
    hide IsUuid, Canonical, IsCanonical, EventOk, KeyOk, KeyLocked, OneEventPerRequest, CacheOk, IssuedOk;
    ReachableInv(s);
    assert RequestOk(s, r1) && RequestOk(s, r2);
    var id := s.db.keys[s.reqs[r1].call.key.value];
    assert s.reqs[r1].pc.response.Replayed? || s.reqs[r2].pc.response.Replayed? ==> OrderOk(s, id);
    CanonicalIsStable(s.reqs[s.issued[id]].call.dto.userId);
  }

  /** The environment is not restrained: users appear, cache entries expire and requests are lost at any time. */
  lemma EnvironmentIsFree(s: State, user: string, rid: Rid)
    requires IsCanonical(user)
    ensures Enabled(s, Register(user)) && Apply(s, Register(user)) == s.(db := s.db.(users := s.db.users + {user}))
    ensures Enabled(s, Expire(user)) && Apply(s, Expire(user)) == s.(cached := s.cached - {user})
    ensures rid in s.reqs && !s.reqs[rid].pc.Done? ==>
              && Enabled(s, Fail(rid))
              && Apply(s, Fail(rid)) == s.(reqs := s.reqs[rid := Request(s.reqs[rid].call, Done(Failed))])
  {
    hide IsUuid, Canonical;
  }

  /** A request without a key, or with an empty one, is never answered from another request's order. */
  lemma WithoutKeyNoReplay(s: State, rid: Rid)
    requires Reachable(s) && Answered(s, rid) && (s.reqs[rid].call.key == None || s.reqs[rid].call.key == Some(""))
    ensures !s.reqs[rid].pc.response.Replayed? && !s.reqs[rid].pc.response.Conflict?
  {
    hide IsUuid, Canonical, IsCanonical, OrderOk, EventOk, KeyOk, KeyLocked, OneOrderPerRequest, OneEventPerRequest, CacheOk, IssuedOk;
    ReachableInv(s);
    assert RequestOk(s, rid);
  }

  /** No action of such a request touches the keys. */
  lemma WithoutKeyNoKey(s: State, a: Action)
    requires Enabled(s, a)
    requires !a.Register? && !a.Expire? && a.rid in s.reqs && (s.reqs[a.rid].call.key == None || s.reqs[a.rid].call.key == Some(""))
    ensures Apply(s, a).db.keys == s.db.keys
  {
    hide IsUuid, Canonical, IsCanonical;
  }

  /** After losing the race on the unique index, both reads succeed: the request ends in 200 or 409, never a rethrow. */
  lemma LostRaceIsAnswered(s: State, rid: Rid)
    requires Reachable(s) && rid in s.reqs
    requires s.reqs[rid].pc == AtKey(true) || s.reqs[rid].pc.AtOrder?
    ensures s.reqs[rid].pc.AtKey? ==> Enabled(s, ReadKey(rid)) && Apply(s, ReadKey(rid)).reqs[rid].pc.AtOrder?
    ensures s.reqs[rid].pc.AtOrder? ==>
              var r := Apply(s, ReadOrder(rid)).reqs[rid].pc;
              var call := s.reqs[rid].call;
              && call.key.Some? && call.key.value in s.db.keys && s.db.keys[call.key.value] in s.db.orders
              && var existing := s.db.orders[s.db.keys[call.key.value]];
              && r == Done(if existing.userId == call.dto.userId then Replayed(existing) else Conflict)
  {
    hide IsUuid, Canonical, IsCanonical, OrderOk, EventOk, KeyLocked, OneOrderPerRequest, OneEventPerRequest, CacheOk, IssuedOk;
    ReachableInv(s);
    assert RequestOk(s, rid);
    assert KeyOk(s, s.reqs[rid].call.key.value);
  }

  /**
   Each order has at most one publish attempt; an event names a committed order and its user; its request answered
   201. Replayed, conflicting and rejected requests therefore publish nothing, and neither do requests that failed
   before the publish; publish and answer are one action, so a connection lost between the two counts as answered.
   */
  lemma PublishDiscipline(s: State)
    requires Reachable(s)
    ensures forall e :: e in s.events ==>
              && s.events[e].orderId in s.db.orders
              && s.db.orders[s.events[e].orderId].userId == Canonical(s.events[e].userId)
              && s.events[e].orderId in s.issued && s.issued[s.events[e].orderId] == s.events[e].rid
              && s.events[e].rid in s.reqs
              && var dto := s.reqs[s.events[e].rid].call.dto;
              && s.reqs[s.events[e].rid].pc == Done(Created(Order(s.events[e].orderId, dto.userId, dto.amount, dto.description)))
    ensures forall e, f :: e in s.events && f in s.events && s.events[e].orderId == s.events[f].orderId ==> e == f
  {
    hide IsUuid, Canonical, IsCanonical, OrderOk, KeyOk, KeyLocked, OneOrderPerRequest, CacheOk;
    ReachableInv(s);
    forall e | e in s.events
      ensures EventOk(s, e) && RequestOk(s, s.events[e].rid)
    {
    }
  }

  /** The cache never holds a user that does not exist, whatever expires and whichever writes are lost. */
  lemma CacheHoldsOnlyUsers(s: State)
    requires Reachable(s)
    ensures forall u :: u in s.cached ==> Canonical(u) in s.db.users
  {
    ReachableInv(s);
  }

  // A repeated request.

  function AloneChecks(rid: Rid, call: Call): seq<Action> {
    [Invoke(rid, call), ReadKey(rid), CacheGet(rid, true), Fetch(rid, Directory.Status(200)), Fill(rid, true)]
  }

  function AloneStores(rid: Rid, id: string, eventId: string): seq<Action> {
    [InsertOrder(rid, id), InsertKey(rid), Commit(rid, true), Publish(rid, eventId)]
  }

  /** A keyed request that runs alone, with a cache miss and a healthy user-service. */
  function AloneCreates(rid: Rid, call: Call, id: string, eventId: string): seq<Action> {
    AloneChecks(rid, call) + AloneStores(rid, id, eventId)
  }

  function AloneRepeats(rid: Rid, call: Call): seq<Action> {
    [Invoke(rid, call), ReadKey(rid), ReadOrder(rid)]
  }

  /** No open transaction holds the key. */
  predicate KeyFree(s: State, key: string) {
    forall r :: r in s.reqs ==> !HoldsKey(s, r, key)
  }

  lemma FirstRequestChecks(s: State, rid: Rid, call: Call)
    requires rid !in s.reqs && Keyed(call) && IsUuid(call.dto.userId)
    requires call.key.value !in s.db.keys && Canonical(call.dto.userId) in s.db.users
    ensures Runs(s, AloneChecks(rid, call))
    ensures Final(s, AloneChecks(rid, call)) ==
            s.(reqs := s.reqs[rid := Request(call, AtInsertOrder)], cached := s.cached + {call.dto.userId})
  {
    hide IsUuid, Canonical, IsCanonical;
    var acts := AloneChecks(rid, call);
    var s1 := Apply(s, acts[0]);
    var s2 := Apply(s1, acts[1]);
    var s3 := Apply(s2, acts[2]);
    var s4 := Apply(s3, acts[3]);
    var s5 := Apply(s4, acts[4]);
    RunsByStates(acts, [s, s1, s2, s3, s4, s5]);
  }

  lemma FirstRequestInserts(s: State, rid: Rid, call: Call, id: string)
    requires rid in s.reqs && s.reqs[rid] == Request(call, AtInsertOrder) && Keyed(call)
    requires KeyFree(s, call.key.value) && call.key.value !in s.db.keys && Fresh(s, id)
    ensures Enabled(s, InsertOrder(rid, id))
    ensures var s1 := Apply(s, InsertOrder(rid, id));
            && Enabled(s1, InsertKey(rid))
            && Apply(s1, InsertKey(rid)) ==
               s.(reqs := s.reqs[rid := Request(call, AtCommit(Saved(id, call.dto)))], issued := s.issued[id := rid])
  {
    hide IsUuid, Canonical, IsCanonical;
  }

  lemma FirstRequestCommits(s: State, rid: Rid, call: Call, order: Order, eventId: string)
    requires rid in s.reqs && s.reqs[rid] == Request(call, AtCommit(order))
    requires Fresh(s, eventId) && order.id != eventId
    ensures Enabled(s, Commit(rid, true))
    ensures var s1 := Apply(s, Commit(rid, true));
            && Enabled(s1, Publish(rid, eventId))
            && Apply(s1, Publish(rid, eventId)).reqs == s.reqs[rid := Request(call, Done(Created(order)))]
            && Apply(s1, Publish(rid, eventId)).db == AfterCommit(s.db, call, order)
  {
    hide IsUuid, Canonical, IsCanonical;
  }

  lemma FirstRequestStores(s: State, rid: Rid, call: Call, id: string, eventId: string)
    requires rid in s.reqs && s.reqs[rid] == Request(call, AtInsertOrder) && Keyed(call)
    requires KeyFree(s, call.key.value) && call.key.value !in s.db.keys
    requires Fresh(s, id) && Fresh(s, eventId) && id != eventId
    ensures Runs(s, AloneStores(rid, id, eventId))
    ensures var s' := Final(s, AloneStores(rid, id, eventId));
            && s'.reqs == s.reqs[rid := Request(call, Done(Created(Saved(id, call.dto))))]
            && s'.db == AfterCommit(s.db, call, Saved(id, call.dto))
  {
    hide IsUuid, Canonical, IsCanonical, Enabled, Apply, Runs, Final, AfterCommit;
    FirstRequestInserts(s, rid, call, id);
    var s1 := Apply(s, InsertOrder(rid, id));
    var s2 := Apply(s1, InsertKey(rid));
    FirstRequestCommits(s2, rid, call, Saved(id, call.dto), eventId);
    var s3 := Apply(s2, Commit(rid, true));
    RunsByStates(AloneStores(rid, id, eventId), [s, s1, s2, s3, Apply(s3, Publish(rid, eventId))]);
  }

  /** A new key and a known user: the request that runs alone ends in a 201 with exactly its rows added. */
  lemma FirstRequestCreates(s: State, rid: Rid, call: Call, id: string, eventId: string)
    requires rid !in s.reqs && call.key.Some? && call.key.value != "" && IsUuid(call.dto.userId)
    requires KeyFree(s, call.key.value) && call.key.value !in s.db.keys && Canonical(call.dto.userId) in s.db.users
    requires Fresh(s, id) && Fresh(s, eventId) && id != eventId
    ensures Runs(s, AloneCreates(rid, call, id, eventId))
    ensures var s' := Final(s, AloneCreates(rid, call, id, eventId));
            && s'.reqs == s.reqs[rid := Request(call, Done(Created(Order(id, call.dto.userId, call.dto.amount, call.dto.description))))]
            && s'.db.keys == s.db.keys[call.key.value := id] && s'.db.users == s.db.users
            && s'.db.orders == s.db.orders[id := Order(id, Canonical(call.dto.userId), call.dto.amount, call.dto.description)]
  {
    hide IsUuid, Canonical, IsCanonical, Enabled, Apply, Runs, Final;
    FirstRequestChecks(s, rid, call);
    FirstRequestStores(Final(s, AloneChecks(rid, call)), rid, call, id, eventId);
    RunsConcat(s, AloneChecks(rid, call), AloneStores(rid, id, eventId));
  }

  lemma {:induction false} RunsConcat(s: State, before: seq<Action>, after: seq<Action>)
    requires Runs(s, before) && Runs(Final(s, before), after)
    ensures Runs(s, before + after) && Final(s, before + after) == Final(Final(s, before), after)
    decreases |before|
  {
    hide Enabled, Apply;
    if before == [] {
      assert before + after == after;
    } else {
      assert (before + after)[1..] == before[1..] + after;
      RunsConcat(Apply(s, before[0]), before[1..], after);
    }
  }

  /** A sequence of states, each obtained from the previous one by the next action, is a run. */
  lemma {:induction false} RunsByStates(acts: seq<Action>, states: seq<State>)
    requires |states| == |acts| + 1
    requires forall i :: 0 <= i < |acts| ==> Enabled(states[i], acts[i]) && states[i + 1] == Apply(states[i], acts[i])
    ensures Runs(states[0], acts) && Final(states[0], acts) == states[|acts|]
  {
    hide Enabled, Apply;
    if acts != [] {
      assert states[1] == Apply(states[0], acts[0]);
      RunsByStates(acts[1..], states[1..]);
    }
  }

  /**
   Sending the same request again with the same key returns the stored order exactly when the user id was spelled in
   lower case; otherwise the owner gets a 409 for an own order, although FR-9 promises a replay.
   */
  lemma RepeatReplaysIffCanonical(s: State, rid: Rid, again: Rid, call: Call, id: string, eventId: string)
    requires rid !in s.reqs && again !in s.reqs && rid != again && call.key.Some? && call.key.value != "" && IsUuid(call.dto.userId)
    requires KeyFree(s, call.key.value) && call.key.value !in s.db.keys && Canonical(call.dto.userId) in s.db.users
    requires Fresh(s, id) && Fresh(s, eventId) && id != eventId
    ensures Runs(s, AloneCreates(rid, call, id, eventId))
    ensures var s' := Final(s, AloneCreates(rid, call, id, eventId));
            && Runs(s', AloneRepeats(again, call))
            && again in Final(s', AloneRepeats(again, call)).reqs
            && var response := Final(s', AloneRepeats(again, call)).reqs[again].pc;
            && (response == Done(Replayed(Order(id, call.dto.userId, call.dto.amount, call.dto.description))) <==> IsCanonical(call.dto.userId))
            && (response == Done(Conflict) <==> !IsCanonical(call.dto.userId))
  {
    hide IsUuid, Canonical;
    FirstRequestCreates(s, rid, call, id, eventId);
    var s' := Final(s, AloneCreates(rid, call, id, eventId));
    var acts := AloneRepeats(again, call);
    var s1 := Apply(s', acts[0]);
    var s2 := Apply(s1, acts[1]);
    var s3 := Apply(s2, acts[2]);
    RunsByStates(acts, [s', s1, s2, s3]);
  }

  /**
   The same in every run: once a request got its 201, any other request with the same key and the same spelling of the
   user id that is answered at all got the stored order if the spelling is lower case and a 409 otherwise, or was
   refused with a 422 before the order existed.
   */
  lemma RepeatIsAnswered(s: State, rid: Rid, again: Rid)
    requires Reachable(s) && Answered(s, rid) && Answered(s, again) && rid != again
    requires s.reqs[rid].call.key.Some? && s.reqs[rid].call.key.value != "" && s.reqs[again].call.key == s.reqs[rid].call.key
    requires s.reqs[again].call.dto.userId == s.reqs[rid].call.dto.userId
    requires s.reqs[rid].pc.response.Created? && s.reqs[again].pc.response != Failed
    ensures var order := s.reqs[rid].pc.response.order;
            || s.reqs[again].pc.response == NoUser
            || s.reqs[again].pc.response == (if IsCanonical(order.userId) then Replayed(order) else Conflict)
  {
    hide IsUuid, Canonical, OrderOk, EventOk, KeyOk, KeyLocked, OneOrderPerRequest, OneEventPerRequest, CacheOk, IssuedOk;
    ReachableInv(s);
    assert RequestOk(s, rid) && RequestOk(s, again);
  }

  const UPPER := "3F6C1C2E-8A3B-4F0E-9D55-0C1D2E3F4A5B"

  /** A user id that is valid on input and whose owner cannot replay: the failing family is not empty. */
  lemma UpperCaseIdCannotReplay()
    ensures IsUuid(UPPER) && !IsCanonical(UPPER)
    ensures Replay(Stored(Saved("id", Dto(UPPER, 1, ""))), Dto(UPPER, 1, "")) == Conflict
  {
    assert UPPER[1] == 'F' && Canonical(UPPER)[1] == 'f';
  }
}
