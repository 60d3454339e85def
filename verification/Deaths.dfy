/**
 The broker topology of messaging/rabbitmq/definitions/definitions.json and the `x-death` header the broker keeps
 while a message circulates, with the attempt counter the worker reads from it
 (services/notification-worker/src/messaging/consumer.service.ts, `failedAttempts`).
 */
module Topology {
  import opened Common

  const MAIN_QUEUE := "notification.order-created"
  const RETRY_QUEUE := "notification.order-created.retry"
  const DLQ := "notification.order-created.dlq"
  const ORDERS_EXCHANGE := "orders"
  const RETRY_EXCHANGE := "orders.retry"
  const REQUEUE_EXCHANGE := "orders.requeue"
  const DEFAULT_EXCHANGE := ""

  datatype Queue = Queue(name: string, deadLetterTo: Option<(string, string)>)
  datatype Binding = Binding(source: string, key: string, destination: string)

  const QUEUES: seq<Queue> := [
    Queue(MAIN_QUEUE, Some((RETRY_EXCHANGE, MAIN_QUEUE))),
    Queue(RETRY_QUEUE, Some((REQUEUE_EXCHANGE, MAIN_QUEUE))),
    Queue(DLQ, None)]

  const BINDINGS: seq<Binding> := [
    Binding(ORDERS_EXCHANGE, "order.created", MAIN_QUEUE),
    Binding(RETRY_EXCHANGE, MAIN_QUEUE, RETRY_QUEUE),
    Binding(REQUEUE_EXCHANGE, MAIN_QUEUE, MAIN_QUEUE)]

  /** The queues a message reaches: the default exchange routes to the queue named by the key, the others by binding. */
  function Route(exchange: string, key: string): set<string> {
    if exchange == DEFAULT_EXCHANGE then set q | q in QUEUES && q.name == key :: q.name
    else set b | b in BINDINGS && b.source == exchange && b.key == key :: b.destination
  }

  /** Where a queue sends what it dead-letters: nowhere when the queue has no dead-letter exchange. */
  function DeadLetterRoute(queue: string): set<string> {
    set q, target | q in QUEUES && q.name == queue && q.deadLetterTo.Some?
                    && target in Route(q.deadLetterTo.value.0, q.deadLetterTo.value.1) :: target
  }

  /** Every hop of the protocol lands in exactly one queue, so no hop duplicates or drops a message. */
  lemma EveryHopHasOneTarget()
    ensures Route("orders", "order.created") == {MAIN_QUEUE} && MAIN_QUEUE == "notification.order-created"
    ensures Route("", "notification.order-created.dlq") == {DLQ} && DLQ == "notification.order-created.dlq"
    ensures RETRY_QUEUE == "notification.order-created.retry"
    ensures DeadLetterRoute(MAIN_QUEUE) == {RETRY_QUEUE}
    ensures DeadLetterRoute(RETRY_QUEUE) == {MAIN_QUEUE}
    ensures DeadLetterRoute(DLQ) == {}
  {
    assert MAIN_QUEUE != RETRY_QUEUE && MAIN_QUEUE != DLQ && RETRY_QUEUE != DLQ by {
      assert |MAIN_QUEUE| != |RETRY_QUEUE| && |MAIN_QUEUE| != |DLQ| && |RETRY_QUEUE| != |DLQ|;
    }
    assert BINDINGS[0] in BINDINGS && BINDINGS[1] in BINDINGS && BINDINGS[2] in BINDINGS;
    assert QUEUES[0] in QUEUES && QUEUES[1] in QUEUES && QUEUES[2] in QUEUES;
    assert |ORDERS_EXCHANGE| != |RETRY_EXCHANGE| && |RETRY_EXCHANGE| != |REQUEUE_EXCHANGE|;
    assert RETRY_QUEUE in Route(RETRY_EXCHANGE, MAIN_QUEUE) && MAIN_QUEUE in Route(REQUEUE_EXCHANGE, MAIN_QUEUE);
  }
}

module Deaths {
  import opened Common
  import Topology

  datatype Reason = Rejected | Expired | MaxLength

  /** One `x-death` entry. A missing count reads as zero. */
  datatype Death = Death(queue: string, reason: Reason, count: Option<nat>)

  function CountOf(d: Death): nat {
    if d.count.Some? then d.count.value else 0
  }

  predicate IsFailedAttempt(d: Death) {
    d.queue == Topology.MAIN_QUEUE && d.reason == Rejected
  }

  /** The worker's counter: the summed counts of the rejections from the main queue. */
  function FailedAttempts(deaths: seq<Death>): nat {
    if deaths == [] then 0
    else (if IsFailedAttempt(deaths[0]) then CountOf(deaths[0]) else 0) + FailedAttempts(deaths[1..])
  }

  /** The first entry for this queue and reason, or |deaths|. */
  function IndexOf(deaths: seq<Death>, queue: string, reason: Reason): (i: nat)
    ensures i <= |deaths|
    ensures i < |deaths| ==> deaths[i].queue == queue && deaths[i].reason == reason
  {
    if deaths == [] then 0
    else if deaths[0].queue == queue && deaths[0].reason == reason then 0
    else 1 + IndexOf(deaths[1..], queue, reason)
  }

  /** The broker on dead-lettering: bump the entry for (queue, reason) and move it to the front, or insert a new one. */
  function RecordDeath(deaths: seq<Death>, queue: string, reason: Reason): seq<Death> {
    var i := IndexOf(deaths, queue, reason);
    if i == |deaths| then [Death(queue, reason, Some(1))] + deaths
    else [Death(queue, reason, Some(CountOf(deaths[i]) + 1))] + deaths[..i] + deaths[i + 1..]
  }

  /** How often the header says the message died in `queue` for `reason`; entries without a count say nothing. */
  function Died(deaths: seq<Death>, queue: string, reason: Reason): nat {
    if deaths == [] then 0
    else
      var d := deaths[|deaths| - 1];
      Died(deaths[..|deaths| - 1], queue, reason)
      + match d.count
        case Some(n) => if d.queue == queue && d.reason == reason then n else 0
        case None => 0
  }

  lemma {:induction false} DeathsOfConcat(a: seq<Death>, b: seq<Death>, queue: string, reason: Reason)
    ensures Died(a + b, queue, reason) == Died(a, queue, reason) + Died(b, queue, reason)
  {
    if b == [] {
      assert a + b == a;
    } else {
      assert (a + b)[..|a + b| - 1] == a + b[..|b| - 1];
      DeathsOfConcat(a, b[..|b| - 1], queue, reason);
    }
  }

  /** The worker's counter is the number of rejections from the main queue. */
  lemma {:induction false} CounterReadsRejections(deaths: seq<Death>)
    ensures FailedAttempts(deaths) == Died(deaths, "notification.order-created", Rejected)
  {
    if deaths != [] {
      CounterReadsRejections(deaths[1..]);
      DeathsOfConcat([deaths[0]], deaths[1..], Topology.MAIN_QUEUE, Rejected);
      assert [deaths[0]][..0] == [] && deaths == [deaths[0]] + deaths[1..];
    }
  }

  /** One dead-lettering adds one to its own queue and reason, and nothing to any other. */
  lemma RecordDeathAddsOne(deaths: seq<Death>, queue: string, reason: Reason, q: string, r: Reason)
    ensures Died(RecordDeath(deaths, queue, reason), q, r) == Died(deaths, q, r) + if q == queue && r == reason then 1 else 0
  {
    hide Died;
    var i := IndexOf(deaths, queue, reason);
    if i == |deaths| {
      DeathsOfConcat([Death(queue, reason, Some(1))], deaths, q, r);
      DiedOnce(Death(queue, reason, Some(1)), q, r);
    } else {
      var bumped := Death(queue, reason, Some(CountOf(deaths[i]) + 1));
      var before, after := deaths[..i], deaths[i + 1..];
      DeathsOfConcat([bumped] + before, after, q, r);
      DeathsOfConcat([bumped], before, q, r);
      DeathsOfConcat(before, [deaths[i]], q, r);
      DeathsOfConcat(before + [deaths[i]], after, q, r);
      DiedOnce(bumped, q, r);
      DiedOnce(deaths[i], q, r);
      assert deaths == before + [deaths[i]] + after;
    }
  }

  lemma DiedOnce(d: Death, q: string, r: Reason)
    ensures Died([d], q, r) == if d.queue == q && d.reason == r then CountOf(d) else 0
  {
    assert [d][..0] == [];
  }

  /** So one dead-lettering adds one to the counter exactly when it is a rejection from the main queue. */
  lemma RecordDeathCounts(deaths: seq<Death>, queue: string, reason: Reason)
    ensures FailedAttempts(RecordDeath(deaths, queue, reason)) ==
            FailedAttempts(deaths) + if queue == Topology.MAIN_QUEUE && reason == Rejected then 1 else 0
  {
    CounterReadsRejections(deaths);
    CounterReadsRejections(RecordDeath(deaths, queue, reason));
    RecordDeathAddsOne(deaths, queue, reason, Topology.MAIN_QUEUE, Rejected);
  }

  /** A hop of the retry loop: the worker rejects from the main queue, or the retry queue's TTL expires. */
  datatype Hop = RejectedFromMain | ExpiredFromRetry

  function AfterHop(deaths: seq<Death>, hop: Hop): seq<Death> {
    match hop
    case RejectedFromMain => RecordDeath(deaths, Topology.MAIN_QUEUE, Rejected)
    case ExpiredFromRetry => RecordDeath(deaths, Topology.RETRY_QUEUE, Expired)
  }

  function AfterHops(deaths: seq<Death>, hops: seq<Hop>): seq<Death>
    decreases |hops|
  {
    if hops == [] then deaths else AfterHops(AfterHop(deaths, hops[0]), hops[1..])
  }

  function Rejections(hops: seq<Hop>): nat {
    if hops == [] then 0 else (if hops[0] == RejectedFromMain then 1 else 0) + Rejections(hops[1..])
  }

  /** One hop is one death: rejected from the main queue, or expired in the retry queue. */
  lemma HopIsOneDeath(deaths: seq<Death>, hop: Hop, q: string, r: Reason)
    ensures Died(AfterHop(deaths, hop), q, r) ==
            Died(deaths, q, r)
            + if hop == RejectedFromMain && q == "notification.order-created" && r == Rejected then 1
              else if hop == ExpiredFromRetry && q == "notification.order-created.retry" && r == Expired then 1
              else 0
  {
    RecordDeathAddsOne(deaths, Topology.MAIN_QUEUE, Rejected, q, r);
    RecordDeathAddsOne(deaths, Topology.RETRY_QUEUE, Expired, q, r);
  }

  /** The header is a faithful counter for every interleaving of rejections and expiries, from any starting header. */
  lemma {:induction false} CounterRefinesRejections(deaths: seq<Death>, hops: seq<Hop>)
    ensures FailedAttempts(AfterHops(deaths, hops)) == FailedAttempts(deaths) + Rejections(hops)
    decreases |hops|
  {
    if hops != [] {
      assert Topology.RETRY_QUEUE != Topology.MAIN_QUEUE by {
        assert |Topology.RETRY_QUEUE| != |Topology.MAIN_QUEUE|;
      }
      RecordDeathCounts(deaths, Topology.MAIN_QUEUE, Rejected);
      RecordDeathCounts(deaths, Topology.RETRY_QUEUE, Expired);
      CounterRefinesRejections(AfterHop(deaths, hops[0]), hops[1..]);
    }
  }
}
