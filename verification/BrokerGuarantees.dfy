/** What the retry and dead-letter protocol guarantees over whole runs. */
module BrokerGuarantees {
  import opened Common
  import opened OrderEvent
  import opened Deaths
  import opened Messages
  import opened Consumer
  import opened Broker
  import opened BrokerInvariant
  import Topology
  import Uuid

  ghost predicate Reachable(s: State) {
    exists init, acts :: Init(init) && Runs(init, acts) && s == Final(init, acts)
  }

  lemma ReachableInv(s: State)
    requires Reachable(s)
    ensures Inv(s)
  {
    var init, acts :| Init(init) && Runs(init, acts) && s == Final(init, acts);
    InitInv(init);
    InvRun(init, acts);
  }

  /** Some queue (or the unacknowledged deliveries of the main queue) holds a copy of the message with its body. */
  ghost predicate HeldSomewhere(s: State, origin: Origin)
    requires origin in s.arrived
  {
    exists c :: c in s.copies && s.copies[c].origin == origin && s.copies[c].msg.content == s.arrived[origin]
  }

  /** No message is ever lost: it is recorded or still held, and a malformed one is always held. */
  lemma NothingIsLost(s: State, origin: Origin)
    requires Reachable(s) && origin in s.arrived
    ensures HeldSomewhere(s, origin) || HasRow(s, s.arrived[origin])
    ensures !WellFormed(s.arrived[origin]) ==> HeldSomewhere(s, origin)
  {
    hide ParseOrderCreated, Uuid.Canonical, FailedAttempts, CountsOk, PlaceOk, RowOk;
    ReachableInv(s);
    if !HasRow(s, s.arrived[origin]) {
      var c :| FirmAt(s, c, origin);
      assert CopyOk(s, c);
    }
  }

  /** Every row belongs to an event that arrived, and stores that event's order and user. */
  lemma RowsComeFromArrivals(s: State, e: string) returns (origin: Origin)
    requires Reachable(s) && e in s.rows
    ensures RowOf(s, e, origin)
  {
    ReachableInv(s);
    assert RowOk(s, e);
    origin :| RowOf(s, e, origin);
  }

  /**
   The attempt counter of every copy equals the count it was published with plus its rejections since; a well-formed
   message is rejected at most maxAttempts - 1 times plus once per failed dead-letter publish, a malformed one exactly
   once per failed dead-letter publish.
   */
  lemma RetryBound(s: State, c: CopyId)
    requires Reachable(s) && c in s.copies
    ensures var copy := s.copies[c];
            && Failures(copy.msg) == copy.base + copy.rejections
            && (WellFormed(copy.msg.content) ==> copy.rejections <= s.maxAttempts - 1 + copy.dlqFailures)
            && (!WellFormed(copy.msg.content) ==> copy.rejections == copy.dlqFailures)
  {
    ReachableInv(s);
    assert CopyOk(s, c);
  }

  /** The accounts behind the bound: a rejection is booked when it happens, as a failed dead-lettering or as a retry. */
  lemma AccountsAreKept(s: State, a: Action, c: CopyId)
    requires Enabled(s, a) && c in s.copies && c in Apply(s, a).copies && c < s.next
    ensures var before := s.copies[c];
            var after := Apply(s, a).copies[c];
            && after.origin == before.origin && after.base == before.base
            && after.rejections == before.rejections + (if a == SettleIt(c) then 1 else 0)
            && after.dlqFailures == before.dlqFailures + (if a == SettleIt(c) && before.place == Unacked(Fallback) then 1 else 0)
  {
    hide ParseOrderCreated, FailedAttempts, AfterHop;
  }

  /** Each retry of a transient failure uses up one attempt of a budget that stays positive, so retries end. */
  lemma RetriesUseUpTheBudget(s: State, c: CopyId)
    requires Reachable(s) && IsFailing(s, c) && Enabled(s, SettleIt(c))
    ensures var s' := Apply(s, SettleIt(c));
            && c in s'.copies && s'.copies[c].place == Waiting
            && 0 < s.maxAttempts - Failures(s'.copies[c].msg) < s.maxAttempts - Failures(s.copies[c].msg)
  {
    hide ParseOrderCreated, Uuid.Canonical, FailedAttempts;
    HopCounts(s.copies[c].msg);
  }

  /**
   The `x-failed-attempts` header of a dead letter: for a well-formed message that arrived without attempts and never
   failed to be dead-lettered it is exactly maxAttempts; each failed dead-letter publish can add one. For a malformed
   message it is one more than its failed dead-letter publishes.
   */
  lemma DeadLetterHeader(s: State, c: CopyId)
    requires Reachable(s) && Enabled(s, PublishDlq(c, true))
    ensures var s' := Apply(s, PublishDlq(c, true));
            var copy := s.copies[c];
            && s.next in s'.copies && s'.copies[s.next].place == Dead(false)
            && s'.copies[s.next].origin == copy.origin && s'.copies[s.next].msg.content == copy.msg.content
            && s'.copies[s.next].msg.failedAttempts.Some? && Failures(s'.copies[s.next].msg) == 0
            && var header := s'.copies[s.next].msg.failedAttempts.value;
            && (WellFormed(copy.msg.content) ==> s.maxAttempts <= header <= copy.base + s.maxAttempts + copy.dlqFailures)
            && (!WellFormed(copy.msg.content) ==> header == copy.base + copy.dlqFailures + 1)
            && s'.copies[s.next].msg.others == copy.msg.others
            && s'.copies[s.next].msg.failureReason ==
               match ParseOrderCreated(copy.msg.content)
               case Err(cause) => Some(PermanentReason(cause))
               case Ok(_) => Some(GaveUp(header))
  {
    hide ParseOrderCreated, Uuid.Canonical, FailedAttempts, Kept, RowOk;
    ReachableInv(s);
    assert CopyOk(s, c);
    HopCounts(s.copies[c].msg);
  }

  /** Replaying the dead-letter queue gives the message a full budget again. */
  lemma ReplayRestoresBudget(s: State, c: CopyId)
    requires Reachable(s) && Enabled(s, ShovelCopy(c))
    ensures var s' := Apply(s, ShovelCopy(c));
            && s.next in s'.copies && s'.copies[s.next].place == Ready
            && s'.copies[s.next].origin == s.copies[c].origin && s'.copies[s.next].msg == s.copies[c].msg
            && s.maxAttempts - Failures(s'.copies[s.next].msg) == s.maxAttempts
            && c in s'.copies && s'.copies[c].place == Dead(true)
  {
    hide ParseOrderCreated, Uuid.Canonical, FailedAttempts, Kept, RowOk;
    ReachableInv(s);
    assert CopyOk(s, c);
  }

  /**
   The environment is not restrained: any new message may arrive, any unacknowledged delivery may come back unchanged
   after a crash, the handler behind it may still insert its row, and any dead letter may be replayed.
   */
  lemma EnvironmentIsFree(s: State, origin: Origin, msg: Message, c: CopyId)
    ensures origin !in s.arrived ==>
              && Enabled(s, Arrive(origin, msg))
              && var s' := Apply(s, Arrive(origin, msg));
              && s'.copies == s.copies[s.next := Copy(origin, msg, Ready, Failures(msg), 0, 0)]
              && s'.arrived == s.arrived[origin := msg.content] && s'.rows == s.rows
    ensures c in s.copies && s.copies[c].place.Unacked? ==>
              && Enabled(s, Requeue(c)) && Apply(s, Requeue(c)) == s.(copies := s.copies[c := s.copies[c].(place := Ready)])
    ensures c in s.copies && s.copies[c].place == Ready ==> s.copies[c].origin in Apply(s, Deliver(c)).seen
    ensures origin in s.seen && origin in s.arrived && ParseOrderCreated(s.arrived[origin]).Ok? ==>
              && Enabled(s, LateRecord(origin))
              && Apply(s, LateRecord(origin)) == s.(rows := Insert(s.rows, ParseOrderCreated(s.arrived[origin]).value))
    ensures c in s.copies && s.copies[c].place.Dead? ==>
              && Enabled(s, ShovelCopy(c)) && Apply(s, ShovelCopy(c)).next == s.next + 1
              && (s.copies[c].place.shovelled ==> Enabled(s, ShovelAck(c)) && Apply(s, ShovelAck(c)) == s.(copies := s.copies - {c}))
  {
    hide ParseOrderCreated, FailedAttempts, Insert;
  }

  /** The hops of the protocol are the ones the broker definitions route. */
  lemma HopsFollowTopology(s: State, c: CopyId)
    requires c in s.copies
    ensures Enabled(s, SettleIt(c)) && c in Apply(s, SettleIt(c)).copies ==>
              Topology.DeadLetterRoute(QueueOf(s.copies[c].place)) == {QueueOf(Apply(s, SettleIt(c)).copies[c].place)}
    ensures Enabled(s, ExpireTtl(c)) ==>
              Topology.DeadLetterRoute(QueueOf(s.copies[c].place)) == {QueueOf(Apply(s, ExpireTtl(c)).copies[c].place)}
    // Every hop leaves its mark in the header.
    ensures Enabled(s, SettleIt(c)) && c in Apply(s, SettleIt(c)).copies ==>
              DeathsOf(Apply(s, SettleIt(c)).copies[c].msg) == AfterHop(DeathsOf(s.copies[c].msg), RejectedFromMain)
    ensures Enabled(s, ExpireTtl(c)) ==>
              DeathsOf(Apply(s, ExpireTtl(c)).copies[c].msg) == AfterHop(DeathsOf(s.copies[c].msg), ExpiredFromRetry)
    ensures Topology.Route(Topology.DEFAULT_EXCHANGE, Topology.DLQ) == {QueueOf(Dead(false))}
    ensures Topology.Route(Topology.ORDERS_EXCHANGE, ORDER_CREATED) == {QueueOf(Ready)}
  {
    hide ParseOrderCreated, FailedAttempts, Topology.Route, Topology.DeadLetterRoute;
    Topology.EveryHopHasOneTarget();
  }

  // One delivery, handled without interruption, is what the handler's code does.

  /** The protocol steps of one delivery under environment `env`; `reached` tells whether a dead letter got through. */
  function HandlerSteps(s: State, c: CopyId, env: Environment, reached: bool): seq<Action>
    requires c in s.copies
  {
    var m := s.copies[c].msg;
    if ExpectedDlq(m, env, s.maxAttempts) == [] then [Deliver(c), Record(c, env.record), SettleIt(c)]
    else if reached then [Deliver(c), Record(c, env.record), PublishDlq(c, true), ConfirmDlq(c, env.confirm), SettleIt(c)]
    else [Deliver(c), Record(c, env.record), PublishDlq(c, false), SettleIt(c)]
  }

  /** What an uninterrupted delivery of copy `c` leaves behind. */
  ghost predicate Handled(s: State, s': State, c: CopyId, env: Environment, reached: bool)
    requires c in s.copies
  {
    var m := s.copies[c].msg;
    && (Expected(m, env, s.maxAttempts) == Ack ==> c !in s'.copies)
    && (Expected(m, env, s.maxAttempts) == Nack ==>
          c in s'.copies && s'.copies[c].place == Waiting && Failures(s'.copies[c].msg) == Failures(m) + 1)
    && s'.rows == (if WellFormed(m.content) && env.record != Lost(false) then Insert(s.rows, ParseOrderCreated(m.content).value) else s.rows)
    && s'.next == s.next + (if reached then |ExpectedDlq(m, env, s.maxAttempts)| else 0)
    && (s'.next > s.next ==> s.next in s'.copies && s'.copies[s.next].msg == ExpectedDlq(m, env, s.maxAttempts)[0])
  }

  /** The row is inserted for a well-formed message unless the insert was lost before it reached the database. */
  lemma RowsAfterInsert(s: State, content: Content, reply: RecordReply)
    ensures RowsAfter(s, content, reply) ==
            if WellFormed(content) && reply != Lost(false) then Insert(s.rows, ParseOrderCreated(content).value) else s.rows
  {
    hide ParseOrderCreated, Insert;
  }

  lemma HandlerSettles(s: State, c: CopyId, env: Environment, reached: bool)
    requires c in s.copies && s.copies[c].place == Ready && c < s.next
    requires ExpectedDlq(s.copies[c].msg, env, s.maxAttempts) == []
    ensures Runs(s, HandlerSteps(s, c, env, reached))
    ensures Handled(s, Final(s, HandlerSteps(s, c, env, reached)), c, env, reached)
  {
    hide ParseOrderCreated, Uuid.Canonical, FailedAttempts, Insert, Runs, Final;
    var acts := HandlerSteps(s, c, env, reached);
    RowsAfterInsert(s, s.copies[c].msg.content, env.record);
    HopCounts(s.copies[c].msg);
    var s1 := Apply(s, acts[0]);
    var s2 := Apply(s1, acts[1]);
    RunsByStates(acts, [s, s1, s2, Apply(s2, acts[2])]);
  }

  /** The first two steps of a delivery: the handler knows whether and how it failed. */
  lemma HandlerStarts(s: State, c: CopyId, reply: RecordReply)
    requires c in s.copies && s.copies[c].place == Ready
    ensures Enabled(s, Deliver(c)) && Enabled(Apply(s, Deliver(c)), Record(c, reply))
    ensures var s2 := Apply(Apply(s, Deliver(c)), Record(c, reply));
            var failure := FailureOf(s.copies[c].msg, reply);
            && s2.copies == s.copies[c := s.copies[c].(place := Unacked(if failure.None? then Recorded else Failing(failure.value)))]
            && s2.next == s.next && s2.maxAttempts == s.maxAttempts && s2.rows == RowsAfter(s, s.copies[c].msg.content, reply)
  {
    hide ParseOrderCreated, Insert, FailedAttempts;
  }

  /** The last three steps of a delivery whose dead letter got through. */
  lemma DeadLetterEnds(s: State, c: CopyId, confirm: Confirm)
    requires Enabled(s, PublishDlq(c, true)) && c < s.next
    ensures var s1 := Apply(s, PublishDlq(c, true));
            && Enabled(s1, ConfirmDlq(c, confirm))
            && var s2 := Apply(s1, ConfirmDlq(c, confirm));
            && Enabled(s2, SettleIt(c))
            && var s3 := Apply(s2, SettleIt(c));
            && s3.rows == s.rows && s3.next == s.next + 1 && s.next in s3.copies
            && s3.copies[s.next].msg ==
               DeadLetterCopy(s.copies[c].msg, DecisionFor(s, s.copies[c].msg, s.copies[c].place.phase.failure).reason)
            && (confirm == Confirmed ==> c !in s3.copies)
            && (confirm != Confirmed ==>
                  && c in s3.copies && s3.copies[c].place == Waiting
                  && Failures(s3.copies[c].msg) == Failures(s.copies[c].msg) + 1)
  {
    hide ParseOrderCreated, FailedAttempts, AfterHop;
    HopCounts(s.copies[c].msg);
  }

  lemma HandlerDeadLetters(s: State, c: CopyId, env: Environment)
    requires c in s.copies && s.copies[c].place == Ready && c < s.next
    requires ExpectedDlq(s.copies[c].msg, env, s.maxAttempts) != []
    ensures Runs(s, HandlerSteps(s, c, env, true))
    ensures Handled(s, Final(s, HandlerSteps(s, c, env, true)), c, env, true)
  {
    hide ParseOrderCreated, Uuid.Canonical, FailedAttempts, Insert, Runs, Final, Apply, RowsAfter;
    var acts := HandlerSteps(s, c, env, true);
    RowsAfterInsert(s, s.copies[c].msg.content, env.record);
    HandlerStarts(s, c, env.record);
    var s1 := Apply(s, acts[0]);
    var s2 := Apply(s1, acts[1]);
    DeadLetterEnds(s2, c, env.confirm);
    var s3 := Apply(s2, acts[2]);
    var s4 := Apply(s3, acts[3]);
    RunsByStates(acts, [s, s1, s2, s3, s4, Apply(s4, acts[4])]);
  }

  /** The last two steps of a delivery whose dead letter did not get through. */
  lemma FallbackEnds(s: State, c: CopyId)
    requires Enabled(s, PublishDlq(c, false))
    ensures var s1 := Apply(s, PublishDlq(c, false));
            && Enabled(s1, SettleIt(c))
            && var s2 := Apply(s1, SettleIt(c));
            && s2.rows == s.rows && s2.next == s.next && c in s2.copies && s2.copies[c].place == Waiting
            && Failures(s2.copies[c].msg) == Failures(s.copies[c].msg) + 1
  {
    hide ParseOrderCreated, FailedAttempts, AfterHop;
    HopCounts(s.copies[c].msg);
  }

  lemma HandlerFallsBack(s: State, c: CopyId, env: Environment)
    requires c in s.copies && s.copies[c].place == Ready && c < s.next && env.confirm != Confirmed
    requires ExpectedDlq(s.copies[c].msg, env, s.maxAttempts) != []
    ensures Runs(s, HandlerSteps(s, c, env, false))
    ensures Handled(s, Final(s, HandlerSteps(s, c, env, false)), c, env, false)
  {
    hide ParseOrderCreated, Uuid.Canonical, FailedAttempts, Insert, Runs, Final, Apply, RowsAfter;
    var acts := HandlerSteps(s, c, env, false);
    RowsAfterInsert(s, s.copies[c].msg.content, env.record);
    HandlerStarts(s, c, env.record);
    var s1 := Apply(s, acts[0]);
    var s2 := Apply(s1, acts[1]);
    FallbackEnds(s2, c);
    var s3 := Apply(s2, acts[2]);
    RunsByStates(acts, [s, s1, s2, s3, Apply(s3, acts[3])]);
  }

  /**
   The uninterrupted steps of a delivery settle it as `handleMessage` does: acknowledged deliveries are gone, the
   others wait in the retry queue with one more attempt, the row is inserted exactly when the handler inserts it, and
   a dead letter is added exactly when the handler publishes one that gets through.
   */
  lemma HandlerFollowsProtocol(s: State, c: CopyId, env: Environment, reached: bool)
    requires c in s.copies && s.copies[c].place == Ready && c < s.next
    requires env.confirm == Confirmed ==> reached
    ensures Runs(s, HandlerSteps(s, c, env, reached))
    ensures Handled(s, Final(s, HandlerSteps(s, c, env, reached)), c, env, reached)
  {
    hide Runs, Final, Handled;
    if ExpectedDlq(s.copies[c].msg, env, s.maxAttempts) == [] {
      HandlerSettles(s, c, env, reached);
    } else if reached {
      HandlerDeadLetters(s, c, env);
    } else {
      HandlerFallsBack(s, c, env);
    }
  }

  lemma {:induction false} RunsByStates(acts: seq<Action>, states: seq<State>)
    requires |states| == |acts| + 1
    requires forall i :: 0 <= i < |acts| ==> Enabled(states[i], acts[i]) && states[i + 1] == Apply(states[i], acts[i])
    ensures Runs(states[0], acts) && Final(states[0], acts) == states[|acts|]
  {
    hide Enabled, Apply;
    if acts != [] {
      assert states[1] == Apply(states[0], acts[0]);
      RunsByStates(acts[1..], states[1..]);
    }
  }

  // The life of one message whose insert fails `failures` times in a row.

  function Round(c: CopyId): seq<Action> {
    [Deliver(c), Record(c, Lost(false)), SettleIt(c), ExpireTtl(c)]
  }

  function Rounds(c: CopyId, n: nat): seq<Action> {
    if n == 0 then [] else Round(c) + Rounds(c, n - 1)
  }

  const STORES := Environment(Answered, false, Confirmed, false)
  const FAILS := Environment(Lost(false), false, Confirmed, false)

  /** The steps of the message when the insert fails `failures` times and every broker operation works. */
  function Life(c: CopyId, maxAttempts: nat, failures: nat): seq<Action>
    requires maxAttempts >= 1
  {
    if failures < maxAttempts then
      Rounds(c, failures) + [Deliver(c), Record(c, Answered), SettleIt(c)]
    else
      Rounds(c, maxAttempts - 1) + [Deliver(c), Record(c, Lost(false)), PublishDlq(c, true), ConfirmDlq(c, Confirmed), SettleIt(c)]
  }

  /** How often a handler processed a delivery of `c` to its end. */
  function Handlings(acts: seq<Action>, c: CopyId): nat {
    multiset(acts)[SettleIt(c)]
  }

  /** `s'` differs from `s` only in copy `c`, which is ready again after `n` more failed attempts. */
  ghost predicate RetriedTo(s: State, s': State, c: CopyId, n: nat)
    requires c in s.copies
  {
    && c in s'.copies && s'.copies[c].place == Ready && s'.copies[c].msg.content == s.copies[c].msg.content
    && Failures(s'.copies[c].msg) == Failures(s.copies[c].msg) + n
    && s'.copies == s.copies[c := s'.copies[c]]
    && s'.rows == s.rows && s'.next == s.next && s'.maxAttempts == s.maxAttempts
  }

  /** The last two steps of a round: rejected, and back in the main queue. */
  lemma RoundEnds(s: State, c: CopyId)
    requires In(s, c, Failing(Transient)) && Failures(s.copies[c].msg) + 1 < s.maxAttempts
    ensures Enabled(s, SettleIt(c)) && Enabled(Apply(s, SettleIt(c)), ExpireTtl(c))
    ensures var s' := Apply(Apply(s, SettleIt(c)), ExpireTtl(c));
            && s'.rows == s.rows && s'.next == s.next && s'.maxAttempts == s.maxAttempts
            && c in s'.copies && s'.copies == s.copies[c := s'.copies[c]] && s'.copies[c].place == Ready
            && s'.copies[c].msg.content == s.copies[c].msg.content
            && Failures(s'.copies[c].msg) == Failures(s.copies[c].msg) + 1
  {
    hide ParseOrderCreated, FailedAttempts, AfterHop;
    HopCounts(s.copies[c].msg);
    HopCounts(Hopped(s.copies[c].msg, RejectedFromMain));
  }

  lemma OneRound(s: State, c: CopyId)
    requires c in s.copies && s.copies[c].place == Ready && WellFormed(s.copies[c].msg.content)
    requires Failures(s.copies[c].msg) + 1 < s.maxAttempts
    ensures Runs(s, Round(c)) && RetriedTo(s, Final(s, Round(c)), c, 1)
  {
    hide ParseOrderCreated, Uuid.Canonical, FailedAttempts, Insert, Runs, Final, Enabled, Apply;
    HandlerStarts(s, c, Lost(false));
    var s1 := Apply(s, Deliver(c));
    var s2 := Apply(s1, Record(c, Lost(false)));
    RoundEnds(s2, c);
    var s3 := Apply(s2, SettleIt(c));
    RunsByStates(Round(c), [s, s1, s2, s3, Apply(s3, ExpireTtl(c))]);
  }

  lemma {:induction false} ManyRounds(s: State, c: CopyId, n: nat)
    requires c in s.copies && s.copies[c].place == Ready && WellFormed(s.copies[c].msg.content)
    requires Failures(s.copies[c].msg) + n < s.maxAttempts
    ensures Runs(s, Rounds(c, n)) && RetriedTo(s, Final(s, Rounds(c, n)), c, n)
    decreases n
  {
    hide ParseOrderCreated, Uuid.Canonical, FailedAttempts, Insert, Enabled, Apply;
    if n == 0 {
      assert s.copies == s.copies[c := s.copies[c]];
    } else {
      OneRound(s, c);
      var s1 := Final(s, Round(c));
      ManyRounds(s1, c, n - 1);
      RunsConcat(s, Round(c), Rounds(c, n - 1));
    }
  }

  lemma {:induction false} RunsConcat(s: State, before: seq<Action>, after: seq<Action>)
    requires Runs(s, before) && Runs(Final(s, before), after)
    ensures Runs(s, before + after) && Final(s, before + after) == Final(Final(s, before), after)
    decreases |before|
  {
    hide Enabled, Apply;
    if before == [] {
      assert before + after == after;
    } else {
      assert (before + after)[1..] == before[1..] + after;
      RunsConcat(Apply(s, before[0]), before[1..], after);
    }
  }

  lemma {:induction false} RoundsHandlings(c: CopyId, n: nat)
    ensures Handlings(Rounds(c, n), c) == n
  {
    if n > 0 {
      RoundsHandlings(c, n - 1);
    }
  }

  lemma LifeHandlings(c: CopyId, maxAttempts: nat, failures: nat)
    requires maxAttempts >= 1
    ensures Handlings(Life(c, maxAttempts, failures), c) == Min(failures + 1, maxAttempts)
  {
    hide Rounds;
    RoundsHandlings(c, Min(failures, maxAttempts - 1));
  }

  lemma LifeSucceeds(s: State, c: CopyId, failures: nat)
    requires c in s.copies && c < s.next && s.copies[c].place == Ready && WellFormed(s.copies[c].msg.content)
    requires Failures(s.copies[c].msg) == 0 && failures < s.maxAttempts
    ensures Runs(s, Life(c, s.maxAttempts, failures))
    ensures var s' := Final(s, Life(c, s.maxAttempts, failures));
            c !in s'.copies && s'.next == s.next && HasRow(s', s.copies[c].msg.content)
  {
    hide ParseOrderCreated, Uuid.Canonical, FailedAttempts, Runs, Final, Enabled, Apply, Rounds, Round;
    ManyRounds(s, c, failures);
    var s1 := Final(s, Rounds(c, failures));
    HandlerFollowsProtocol(s1, c, STORES, true);
    RunsConcat(s, Rounds(c, failures), [Deliver(c), Record(c, Answered), SettleIt(c)]);
  }

  lemma LifeGivesUp(s: State, c: CopyId, failures: nat)
    requires c in s.copies && c < s.next && s.copies[c].place == Ready && WellFormed(s.copies[c].msg.content)
    requires Failures(s.copies[c].msg) == 0 && failures >= s.maxAttempts >= 1
    ensures Runs(s, Life(c, s.maxAttempts, failures))
    ensures var s' := Final(s, Life(c, s.maxAttempts, failures));
            && c !in s'.copies && s'.rows == s.rows && s'.next == s.next + 1 && s.next in s'.copies
            && s'.copies[s.next].msg.failedAttempts == Some(s.maxAttempts)
            && s'.copies[s.next].msg.failureReason == Some(GaveUp(s.maxAttempts))
  {
    hide ParseOrderCreated, Uuid.Canonical, FailedAttempts, Runs, Final, Enabled, Apply, Rounds, Round;
    var n := s.maxAttempts - 1;
    ManyRounds(s, c, n);
    var s1 := Final(s, Rounds(c, n));
    HandlerFollowsProtocol(s1, c, FAILS, true);
    RunsConcat(s, Rounds(c, n), HandlerSteps(s1, c, FAILS, true));
  }

  /**
   A run of every length exists: left alone, a fresh well-formed message whose insert fails `failures` times is recorded at the first success, if that comes
   within maxAttempts, with no dead letter; otherwise it is in the dead-letter queue after exactly maxAttempts
   handlings, with x-failed-attempts equal to maxAttempts and no row.
   */
  lemma LifeOfAMessage(s: State, c: CopyId, failures: nat)
    requires c in s.copies && c < s.next && s.copies[c].place == Ready && WellFormed(s.copies[c].msg.content)
    requires Failures(s.copies[c].msg) == 0 && s.maxAttempts >= 1
    ensures Runs(s, Life(c, s.maxAttempts, failures))
    ensures Handlings(Life(c, s.maxAttempts, failures), c) == Min(failures + 1, s.maxAttempts)
    ensures var s' := Final(s, Life(c, s.maxAttempts, failures));
            && c !in s'.copies
            && (failures < s.maxAttempts ==> s'.next == s.next && HasRow(s', s.copies[c].msg.content))
            && (failures >= s.maxAttempts ==>
                  && s'.rows == s.rows && s'.next == s.next + 1 && s.next in s'.copies
                  && s'.copies[s.next].msg.failedAttempts == Some(s.maxAttempts)
                  && s'.copies[s.next].msg.failureReason == Some(GaveUp(s.maxAttempts)))
  {
    hide HasRow, Runs, Final, Life, Handlings;
    LifeHandlings(c, s.maxAttempts, failures);
    if failures < s.maxAttempts {
      LifeSucceeds(s, c, failures);
    } else {
      LifeGivesUp(s, c, failures);
    }
  }
}
