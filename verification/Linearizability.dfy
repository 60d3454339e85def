/**
 Every interleaving of `create` calls is equivalent to a sequential history of atomic create-or-get operations that
 respects real time. The history is built from the run: a winner takes effect at its commit, a replay or 409 at the
 key lookup that found the key, and a 422 at the request's first key lookup (or, without a key, at the 404), which is
 known only once the run is over.
 */
module Linearizability {
  import opened Common
  import opened Uuid
  import opened Orders
  import opened OrdersInvariant
  import Directory

  datatype Op =
    | RegisterOp(user: string)
    | CreateOp(rid: Rid, call: Call, id: string, response: Response)

  /**
   The sequential specification: create the order, or get the one behind the key, in one step. It is written out on
   its own, with nothing of the transition system but the tables.
   */
  function AtomicCreate(db: Tables, call: Call, id: string): (Tables, Response) {
    var dto := call.dto;
    match call.key
    case Some(key) =>
      if key != "" && key in db.keys && db.keys[key] in db.orders then
        var existing := db.orders[db.keys[key]];
        (db, if existing.userId == dto.userId then Replayed(existing) else Conflict)
      else if Canonical(dto.userId) !in db.users then (db, NoUser)
      else
        (Tables(db.users, db.orders[id := Order(id, Canonical(dto.userId), dto.amount, dto.description)],
                if key == "" then db.keys else db.keys[key := id]),
         Created(Order(id, dto.userId, dto.amount, dto.description)))
    case None =>
      if Canonical(dto.userId) !in db.users then (db, NoUser)
      else
        (Tables(db.users, db.orders[id := Order(id, Canonical(dto.userId), dto.amount, dto.description)], db.keys),
         Created(Order(id, dto.userId, dto.amount, dto.description)))
  }

  /** One operation of a sequential history; None when the recorded response is not the one the specification gives. */
  function Perform(db: Tables, op: Op): Option<Tables> {
    match op
    case RegisterOp(user) => Some(db.(users := db.users + {user}))
    case CreateOp(_, call, id, response) =>
      var (db', r) := AtomicCreate(db, call, id);
      if r == response && (r.Created? ==> id !in db.orders) then Some(db') else None
  }

  function PerformAll(db: Tables, ops: seq<Op>): Option<Tables>
    decreases |ops|
  {
    if ops == [] then Some(db)
    else
      var next := Perform(db, ops[0]);
      if next.None? then None else PerformAll(next.value, ops[1..])
  }

  predicate Refused(f: State, rid: Rid) {
    rid in f.reqs && f.reqs[rid].pc == Done(NoUser)
  }

  /** The operation that takes effect at action `a` in `s`, in a run that ends in `f`. */
  function Effect(s: State, a: Action, f: State): seq<Op>
    requires Enabled(s, a)
  {
    match a
    case Register(user) => [RegisterOp(user)]
    case ReadKey(rid) =>
      var call := s.reqs[rid].call;
      if call.key.value in s.db.keys then
        if s.db.keys[call.key.value] in s.db.orders then
          [CreateOp(rid, call, "", Replay(s.db.orders[s.db.keys[call.key.value]], call.dto))]
        else []
      else if !s.reqs[rid].pc.retry && Refused(f, rid) then [CreateOp(rid, call, "", NoUser)]
      else []
    case Fetch(rid, reply) =>
      var call := s.reqs[rid].call;
      if !Keyed(call) && Directory.Judge(reply) == Directory.Missing then [CreateOp(rid, call, "", NoUser)] else []
    case Commit(rid, _) =>
      var order := s.reqs[rid].pc.order;
      [CreateOp(rid, s.reqs[rid].call, order.id, Created(order))]
    case _ => []
  }

  function History(s: State, acts: seq<Action>, f: State): seq<Op>
    requires Runs(s, acts)
    decreases |acts|
  {
    if acts == [] then [] else Effect(s, acts[0], f) + History(Apply(s, acts[0]), acts[1..], f)
  }

  // The history is legal.

  /** The user set only grows, so a user missing at the 404 was missing at every earlier point. */
  lemma {:induction false} RefusedMeansAbsent(s: State, acts: seq<Action>, rid: Rid)
    requires Runs(s, acts) && rid in s.reqs && s.reqs[rid].pc != Done(NoUser)
    requires Refused(Final(s, acts), rid)
    ensures Canonical(s.reqs[rid].call.dto.userId) !in s.db.users
    decreases |acts|
  {
    hide IsUuid, Canonical, IsCanonical;
    var s' := Apply(s, acts[0]);
    assert rid in s'.reqs && s'.reqs[rid].call == s.reqs[rid].call && s.db.users <= s'.db.users;
    if s'.reqs[rid].pc == Done(NoUser) {
      assert acts[0].Fetch? && acts[0].rid == rid;
    } else {
      RefusedMeansAbsent(s', acts[1..], rid);
    }
  }

  lemma EffectIsLegal(s: State, a: Action, f: State)
    requires Inv(s) && Enabled(s, a)
    requires a.ReadKey? && Refused(f, a.rid) ==> Canonical(s.reqs[a.rid].call.dto.userId) !in s.db.users
    ensures PerformAll(s.db, Effect(s, a, f)) == Some(Apply(s, a).db)
  {
    hide IsUuid, Canonical, IsCanonical, OrderOk, EventOk, KeyLocked, OneOrderPerRequest, OneEventPerRequest, CacheOk, IssuedOk;
    var ops := Effect(s, a, f);
    if a.ReadKey? || a.Fetch? || a.Commit? {
      assert RequestOk(s, a.rid);
    }
    if a.ReadKey? && s.reqs[a.rid].call.key.value in s.db.keys {
      assert KeyOk(s, s.reqs[a.rid].call.key.value);
    }
    if ops != [] {
      assert ops[1..] == [];
      assert Perform(s.db, ops[0]) == Some(Apply(s, a).db);
    }
  }

  lemma PerformConcat(db: Tables, ops: seq<Op>, more: seq<Op>)
    requires |ops| <= 1 && PerformAll(db, ops).Some?
    ensures PerformAll(db, ops + more) == PerformAll(PerformAll(db, ops).value, more)
  {
    if ops == [] {
      assert ops + more == more;
    } else {
      assert (ops + more)[1..] == more && ops[1..] == [];
    }
  }

  /** Performing the history sequentially from the initial tables gives every recorded response and the final tables. */
  lemma {:induction false} Linearizable(s: State, acts: seq<Action>, f: State)
    requires Inv(s) && Runs(s, acts) && f == Final(s, acts)
    ensures PerformAll(s.db, History(s, acts, f)) == Some(f.db)
    decreases |acts|
  {
    hide Inv, Perform, Canonical, IsUuid, IsCanonical;
    if acts != [] {
      var a := acts[0];
      var s' := Apply(s, a);
      if a.ReadKey? && Refused(f, a.rid) {
        RefusedMeansAbsent(s, acts, a.rid);
      }
      EffectIsLegal(s, a, f);
      InvStep(s, a);
      Linearizable(s', acts[1..], f);
      PerformConcat(s.db, Effect(s, a, f), History(s', acts[1..], f));
    }
  }

  // Every answered request is in the history exactly once, with the response it got.

  predicate By(op: Op, rid: Rid) {
    op.CreateOp? && op.rid == rid
  }

  function OpsBy(ops: seq<Op>, rid: Rid): seq<Op> {
    if ops == [] then []
    else (if By(ops[0], rid) then [ops[0]] else []) + OpsBy(ops[1..], rid)
  }

  lemma {:induction false} OpsByConcat(ops: seq<Op>, more: seq<Op>, rid: Rid)
    ensures OpsBy(ops + more, rid) == OpsBy(ops, rid) + OpsBy(more, rid)
  {
    hide By;
    if ops == [] {
      assert ops + more == more;
    } else {
      var head := if By(ops[0], rid) then [ops[0]] else [];
      assert (ops + more)[1..] == ops[1..] + more && (ops + more)[0] == ops[0];
      OpsByConcat(ops[1..], more, rid);
      calc {
        OpsBy(ops + more, rid);
        head + (OpsBy(ops[1..], rid) + OpsBy(more, rid));
        head + OpsBy(ops[1..], rid) + OpsBy(more, rid);
        OpsBy(ops, rid) + OpsBy(more, rid);
      }
    }
  }

  /** An action of somebody else leaves the request alone and has no effect of its. */
  lemma OthersAct(s: State, a: Action, f: State, rid: Rid)
    requires Enabled(s, a) && (a.Register? || a.Expire? || a.rid != rid)
    ensures OpsBy(Effect(s, a, f), rid) == []
    ensures rid in s.reqs ==> rid in Apply(s, a).reqs && Apply(s, a).reqs[rid] == s.reqs[rid]
    ensures rid !in s.reqs ==> rid !in Apply(s, a).reqs
  {
    hide IsUuid, Canonical, IsCanonical;
    assert forall op :: op in Effect(s, a, f) ==> !By(op, rid);
  }

  /** From here on the request can no longer end in a 422. */
  predicate PastUserCheck(pc: Pc) {
    match pc
    case AtKey(retry) => retry
    case AtCache => false
    case AtFetch(_) => false
    case Done(response) => response != NoUser
    case _ => true
  }

  lemma PastUserCheckStep(s: State, a: Action, rid: Rid)
    requires Inv(s) && Enabled(s, a) && rid in s.reqs && PastUserCheck(s.reqs[rid].pc)
    ensures rid in Apply(s, a).reqs && PastUserCheck(Apply(s, a).reqs[rid].pc)
  {
    hide IsUuid, Canonical, IsCanonical, OrderOk, EventOk, KeyLocked, OneOrderPerRequest, OneEventPerRequest, CacheOk, IssuedOk;
    assert RequestOk(s, rid);
    if a.ReadOrder? && a.rid == rid {
      assert KeyOk(s, s.reqs[rid].call.key.value);
    }
  }

  lemma {:induction false} NeverRefused(s: State, acts: seq<Action>, rid: Rid)
    requires Inv(s) && Runs(s, acts) && rid in s.reqs && PastUserCheck(s.reqs[rid].pc)
    ensures !Refused(Final(s, acts), rid)
    decreases |acts|
  {
    hide Inv;
    if acts != [] {
      InvStep(s, acts[0]);
      PastUserCheckStep(s, acts[0], rid);
      NeverRefused(Apply(s, acts[0]), acts[1..], rid);
    }
  }

  /** The request has taken effect with response `r`; only delivering that response, or failing to, is left. */
  predicate Decided(s: State, rid: Rid, r: Response, f: State) {
    && rid in s.reqs
    && var call := s.reqs[rid].call;
    match s.reqs[rid].pc
    case AtOrder(orderId, _) => orderId in s.db.orders && r == Replay(s.db.orders[orderId], call.dto)
    case AtPublish(order) => r == Created(order)
    case Done(response) => response == r || response == Failed
    case AtCache => Keyed(call) && Refused(f, rid) && r == NoUser
    case AtFetch(_) => Keyed(call) && Refused(f, rid) && r == NoUser
    case _ => false
  }

  lemma OrdersStay(s: State, a: Action, id: string)
    requires Inv(s) && Enabled(s, a) && id in s.db.orders
    ensures id in Apply(s, a).db.orders && Apply(s, a).db.orders[id] == s.db.orders[id]
  {
    hide IsUuid, Canonical, IsCanonical, OrderOk, KeyOk, EventOk, KeyLocked, OneOrderPerRequest, OneEventPerRequest, CacheOk, IssuedOk;
    if a.Commit? {
      assert RequestOk(s, a.rid);
    }
  }

  lemma DecidedStep(s: State, a: Action, rid: Rid, r: Response, f: State)
    requires Inv(s) && Enabled(s, a) && Decided(s, rid, r, f) && rid in Apply(s, a).reqs
    requires Refused(f, rid) ==> !PastUserCheck(Apply(s, a).reqs[rid].pc)
    ensures Decided(Apply(s, a), rid, r, f)
    ensures OpsBy(Effect(s, a, f), rid) == []
  {
    hide IsUuid, Canonical, IsCanonical, Inv;
    if a.Register? || a.Expire? || a.rid != rid {
      OthersAct(s, a, f, rid);
      if s.reqs[rid].pc.AtOrder? {
        OrdersStay(s, a, s.reqs[rid].pc.orderId);
      }
    }
  }

  lemma {:induction false} DecidedRun(s: State, acts: seq<Action>, rid: Rid, r: Response, f: State)
    requires Inv(s) && Runs(s, acts) && f == Final(s, acts) && Decided(s, rid, r, f)
    ensures OpsBy(History(s, acts, f), rid) == []
    ensures rid in f.reqs && f.reqs[rid].call == s.reqs[rid].call
    ensures f.reqs[rid].pc.Done? ==> f.reqs[rid].pc.response == r || f.reqs[rid].pc.response == Failed
    decreases |acts|
  {
    hide Inv;
    if acts != [] {
      var s' := Apply(s, acts[0]);
      InvStep(s, acts[0]);
      CallStays(s, acts[0], rid);
      if PastUserCheck(s'.reqs[rid].pc) {
        NeverRefused(s', acts[1..], rid);
      }
      DecidedStep(s, acts[0], rid, r, f);
      DecidedRun(s', acts[1..], rid, r, f);
      OpsByConcat(Effect(s, acts[0], f), History(s', acts[1..], f), rid);
    }
  }

  lemma CallStays(s: State, a: Action, rid: Rid)
    requires Enabled(s, a) && rid in s.reqs
    ensures rid in Apply(s, a).reqs && Apply(s, a).reqs[rid].call == s.reqs[rid].call
  {
    hide IsUuid, Canonical, IsCanonical;
  }

  /** The request has not taken effect yet. */
  predicate Undecided(s: State, rid: Rid, f: State) {
    rid in s.reqs ==>
      match s.reqs[rid].pc
      case AtOrder(_, _) => false
      case AtPublish(_) => false
      case Done(response) => response == Failed
      case AtCache => !(Keyed(s.reqs[rid].call) && Refused(f, rid))
      case AtFetch(_) => !(Keyed(s.reqs[rid].call) && Refused(f, rid))
      case _ => true
  }

  lemma AnswerStays(s: State, a: Action, rid: Rid)
    requires Enabled(s, a) && rid in s.reqs && s.reqs[rid].pc.Done?
    ensures rid in Apply(s, a).reqs && Apply(s, a).reqs[rid] == s.reqs[rid]
  {
    hide IsUuid, Canonical, IsCanonical;
  }

  lemma {:induction false} AnswersStay(s: State, acts: seq<Action>, rid: Rid)
    requires Runs(s, acts) && rid in s.reqs && s.reqs[rid].pc.Done?
    ensures rid in Final(s, acts).reqs && Final(s, acts).reqs[rid] == s.reqs[rid]
    decreases |acts|
  {
    hide Enabled, Apply;
    if acts != [] {
      AnswerStays(s, acts[0], rid);
      AnswersStay(Apply(s, acts[0]), acts[1..], rid);
    }
  }

  /** An action of the request itself: no effect and still undecided, or exactly one effect and decided. */
  lemma OwnStep(s: State, a: Action, rid: Rid, f: State)
    requires Inv(s) && Enabled(s, a) && Undecided(s, rid, f) && !a.Register? && !a.Expire? && a.rid == rid
    requires Refused(Apply(s, a), rid) ==> Refused(f, rid)
    ensures Effect(s, a, f) == [] ==> Undecided(Apply(s, a), rid, f)
    ensures Effect(s, a, f) != [] ==>
              var op := Effect(s, a, f)[0];
              && By(op, rid) && Effect(s, a, f) == [op]
              && Decided(Apply(s, a), rid, op.response, f) && op.call == Apply(s, a).reqs[rid].call
  {
    hide IsUuid, Canonical, IsCanonical, OrderOk, EventOk, KeyLocked, OneOrderPerRequest, OneEventPerRequest, CacheOk, IssuedOk;
    if a.ReadKey? && s.reqs[rid].call.key.value in s.db.keys {
      assert KeyOk(s, s.reqs[rid].call.key.value);
    }
    if rid in s.reqs {
      assert RequestOk(s, rid);
    }
  }

  lemma UndecidedStep(s: State, a: Action, rid: Rid, f: State) returns (op: Option<Op>)
    requires Inv(s) && Enabled(s, a) && Undecided(s, rid, f)
    requires Refused(Apply(s, a), rid) ==> Refused(f, rid)
    ensures op.None? ==> OpsBy(Effect(s, a, f), rid) == [] && Undecided(Apply(s, a), rid, f)
    ensures op.Some? ==> OpsBy(Effect(s, a, f), rid) == [op.value] && op.value.CreateOp?
                         && Decided(Apply(s, a), rid, op.value.response, f)
                         && op.value.call == Apply(s, a).reqs[rid].call
  {
    hide Inv, IsUuid, Canonical, IsCanonical, Effect, Apply, Enabled;
    if a.Register? || a.Expire? || a.rid != rid {
      OthersAct(s, a, f, rid);
      op := None;
    } else {
      OwnStep(s, a, rid, f);
      var ops := Effect(s, a, f);
      op := if ops == [] then None else Some(ops[0]);
      if ops != [] {
        assert ops[1..] == [];
      }
    }
  }

  /** `ops` is what the history holds for one request: nothing, or one operation that matches its final response. */
  predicate Accounts(ops: seq<Op>, f: State, rid: Rid) {
    && |ops| <= 1
    && (|ops| == 1 ==> rid in f.reqs && ops[0].CreateOp? && ops[0].call == f.reqs[rid].call)
    && (rid in f.reqs && f.reqs[rid].pc.Done? && f.reqs[rid].pc.response != Failed ==>
          |ops| == 1 && ops[0].CreateOp? && ops[0].response == f.reqs[rid].pc.response)
  }

  lemma {:induction false} AnsweredOnceFrom(s: State, acts: seq<Action>, rid: Rid, f: State)
    requires Inv(s) && Runs(s, acts) && f == Final(s, acts) && Undecided(s, rid, f)
    ensures Accounts(OpsBy(History(s, acts, f), rid), f, rid)
    decreases |acts|
  {
    hide Inv;
    if acts != [] {
      var s' := Apply(s, acts[0]);
      InvStep(s, acts[0]);
      if Refused(s', rid) {
        AnswersStay(s', acts[1..], rid);
      }
      var op := UndecidedStep(s, acts[0], rid, f);
      OpsByConcat(Effect(s, acts[0], f), History(s', acts[1..], f), rid);
      if op.None? {
        AnsweredOnceFrom(s', acts[1..], rid, f);
      } else {
        DecidedRun(s', acts[1..], rid, op.value.response, f);
      }
    }
  }

  /** In every run, each request that got an answer occurs in the history exactly once, with its call and its answer. */
  lemma AnsweredOnce(s: State, acts: seq<Action>, rid: Rid)
    requires Init(s) && Runs(s, acts)
    ensures Accounts(OpsBy(History(s, acts, Final(s, acts)), rid), Final(s, acts), rid)
  {
    InitInv(s);
    AnsweredOnceFrom(s, acts, rid, Final(s, acts));
  }

  // The history respects real time.

  lemma {:induction false} HistorySplits(s: State, before: seq<Action>, after: seq<Action>, f: State)
    requires Runs(s, before + after)
    ensures Runs(s, before) && Runs(Final(s, before), after)
    ensures Final(s, before + after) == Final(Final(s, before), after)
    ensures History(s, before + after, f) == History(s, before, f) + History(Final(s, before), after, f)
    decreases |before|
  {
    hide Enabled, Apply, Effect;
    if before == [] {
      assert before + after == after;
    } else {
      assert (before + after)[1..] == before[1..] + after;
      HistorySplits(Apply(s, before[0]), before[1..], after, f);
    }
  }

  lemma {:induction false} NothingBeforeInvoke(s: State, acts: seq<Action>, rid: Rid, f: State)
    requires Runs(s, acts) && rid !in Final(s, acts).reqs
    ensures OpsBy(History(s, acts, f), rid) == []
    ensures rid !in s.reqs
    decreases |acts|
  {
    hide IsUuid, Canonical, IsCanonical, Effect;
    if acts != [] {
      var a := acts[0];
      NothingBeforeInvoke(Apply(s, a), acts[1..], rid, f);
      assert a.Register? || a.Expire? || a.rid != rid;
      OthersAct(s, a, f, rid);
      OpsByConcat(Effect(s, a, f), History(Apply(s, a), acts[1..], f), rid);
    }
  }

  lemma {:induction false} OpsByMember(ops: seq<Op>, rid: Rid, i: nat)
    requires i < |ops| && By(ops[i], rid)
    ensures OpsBy(ops, rid) != []
  {
    if i != 0 {
      OpsByMember(ops[1..], rid, i - 1);
    }
  }

  /** If `first` was answered before `second` was invoked, `first` comes before `second` in the history. */
  lemma RealTimeOrder(s: State, before: seq<Action>, after: seq<Action>, first: Rid, second: Rid, i: nat, j: nat)
    requires Init(s) && Runs(s, before + after)
    requires Runs(s, before) && first in Final(s, before).reqs && Final(s, before).reqs[first].pc.Done?
    requires second !in Final(s, before).reqs
    requires var h := History(s, before + after, Final(s, before + after));
             i < |h| && j < |h| && By(h[i], first) && By(h[j], second)
    ensures i < j
  {
    hide Inv, Enabled, Apply, Effect;
    var f := Final(s, before + after);
    var mid := Final(s, before);
    HistorySplits(s, before, after, f);
    InitInv(s);
    InvRun(s, before);
    DecidedRun(mid, after, first, mid.reqs[first].pc.response, f);
    NothingBeforeInvoke(s, before, second, f);
    var early, late := History(s, before, f), History(mid, after, f);
    if i >= |early| {
      OpsByMember(late, first, i - |early|);
    }
    if j < |early| {
      OpsByMember(early, second, j);
    }
  }
}
