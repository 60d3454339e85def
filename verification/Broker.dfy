/**
 The retry and dead-letter protocol of notification-worker over the broker topology
 (services/notification-worker/src/messaging/consumer.service.ts, messaging/rabbitmq/definitions/definitions.json,
 scripts/replay-dlq.sh). Every physical copy of a message has an identity; deliveries, handler steps, broker hops,
 crashes and replays of all copies interleave freely.
 */
module Broker {
  import opened Common
  import opened OrderEvent
  import opened Deaths
  import opened Messages
  import opened Consumer
  import Topology

  type CopyId = nat
  /** The identity of one publish into the main queue; every later copy of that message keeps it. */
  type Origin = nat

  /** How far the handler of an unacknowledged delivery got. */
  datatype Phase =
    | Handling
    | Failing(failure: Failure)
    | Recorded
    | AwaitConfirm
    | Fallback
    | Parked

  datatype Place =
    | Ready
    | Unacked(phase: Phase)
    | Waiting
    | Dead(shovelled: bool)

  function QueueOf(place: Place): string {
    match place
    case Ready => Topology.MAIN_QUEUE
    case Unacked(_) => Topology.MAIN_QUEUE
    case Waiting => Topology.RETRY_QUEUE
    case Dead(_) => Topology.DLQ
  }

  /**
   `base` is the attempt count the copy was published with; `rejections` counts its rejections from the main queue
   since then, and `dlqFailures` those caused by a dead-letter publish that was not confirmed.
   */
  datatype Copy = Copy(origin: Origin, msg: Message, place: Place, base: nat, rejections: nat, dlqFailures: nat)

  datatype State = State(
    maxAttempts: nat,
    copies: map<CopyId, Copy>,
    next: CopyId,
    arrived: map<Origin, Content>,
    seen: set<Origin>,
    rows: map<string, Row>)

  datatype Action =
    | Arrive(origin: Origin, msg: Message)
    | Deliver(c: CopyId)
    | Record(c: CopyId, reply: RecordReply)
    | LateRecord(origin: Origin)
    | PublishDlq(c: CopyId, reached: bool)
    | ConfirmDlq(c: CopyId, confirm: Confirm)
    | SettleIt(c: CopyId)
    | Requeue(c: CopyId)
    | ExpireTtl(c: CopyId)
    | ShovelCopy(c: CopyId)
    | ShovelAck(c: CopyId)

  function DecisionFor(s: State, m: Message, failure: Failure): Decision {
    Decide(failure, Failures(m), s.maxAttempts)
  }

  predicate In(s: State, c: CopyId, phase: Phase) {
    c in s.copies && s.copies[c].place == Unacked(phase)
  }

  predicate IsFailing(s: State, c: CopyId) {
    c in s.copies && s.copies[c].place.Unacked? && s.copies[c].place.phase.Failing?
  }

  predicate Enabled(s: State, a: Action) {
    match a
    case Arrive(origin, _) => origin !in s.arrived
    case Deliver(c) => c in s.copies && s.copies[c].place == Ready
    case Record(c, _) => In(s, c, Handling)
    // A handler whose channel closed keeps running: it can still insert the row, but no longer settle the delivery.
    case LateRecord(origin) => origin in s.seen && origin in s.arrived && WellFormed(s.arrived[origin])
    case PublishDlq(c, _) => IsFailing(s, c) && DecisionFor(s, s.copies[c].msg, s.copies[c].place.phase.failure).DeadLetter?
    case ConfirmDlq(c, _) => In(s, c, AwaitConfirm)
    case SettleIt(c) =>
      || In(s, c, Recorded) || In(s, c, Parked) || In(s, c, Fallback)
      || (IsFailing(s, c) && DecisionFor(s, s.copies[c].msg, s.copies[c].place.phase.failure).Retry?)
    case Requeue(c) => c in s.copies && s.copies[c].place.Unacked?
    case ExpireTtl(c) => c in s.copies && s.copies[c].place == Waiting
    case ShovelCopy(c) => c in s.copies && s.copies[c].place.Dead?
    case ShovelAck(c) => c in s.copies && s.copies[c].place == Dead(true)
  }

  function Put(s: State, c: CopyId, copy: Copy): State {
    s.(copies := s.copies[c := copy])
  }

  function Move(s: State, c: CopyId, place: Place): State
    requires c in s.copies
  {
    Put(s, c, s.copies[c].(place := place))
  }

  function Remove(s: State, c: CopyId): State {
    s.(copies := s.copies - {c})
  }

  /** A newly published message gets the next copy identity. */
  function Add(s: State, origin: Origin, msg: Message, place: Place): State {
    s.(copies := s.copies[s.next := Copy(origin, msg, place, Failures(msg), 0, 0)], next := s.next + 1)
  }

  /** The rejected copy on its way through the retry queue. */
  function Rejected(copy: Copy): Copy {
    copy.(msg := Hopped(copy.msg, RejectedFromMain), place := Waiting, rejections := copy.rejections + 1,
          dlqFailures := copy.dlqFailures + if copy.place == Unacked(Fallback) then 1 else 0)
  }

  function RowsAfter(s: State, content: Content, reply: RecordReply): map<string, Row> {
    var parsed := ParseOrderCreated(content);
    if parsed.Err? || reply == Lost(false) then s.rows else Insert(s.rows, parsed.value)
  }

  function Apply(s: State, a: Action): State
    requires Enabled(s, a)
  {
    match a
    case Arrive(origin, msg) => Add(s, origin, msg, Ready).(arrived := s.arrived[origin := msg.content])
    case Deliver(c) => Move(s, c, Unacked(Handling)).(seen := s.seen + {s.copies[c].origin})
    case Record(c, reply) =>
      var failure := FailureOf(s.copies[c].msg, reply);
      Move(s, c, Unacked(if failure.None? then Recorded else Failing(failure.value)))
      .(rows := RowsAfter(s, s.copies[c].msg.content, reply))
    case LateRecord(origin) => s.(rows := RowsAfter(s, s.arrived[origin], Answered))
    case PublishDlq(c, reached) =>
      var copy := s.copies[c];
      if reached then
        Add(Move(s, c, Unacked(AwaitConfirm)), copy.origin,
            DeadLetterCopy(copy.msg, DecisionFor(s, copy.msg, copy.place.phase.failure).reason), Dead(false))
      else Move(s, c, Unacked(Fallback))
    case ConfirmDlq(c, confirm) => Move(s, c, Unacked(if confirm == Confirmed then Parked else Fallback))
    case SettleIt(c) =>
      if In(s, c, Recorded) || In(s, c, Parked) then Remove(s, c) else Put(s, c, Rejected(s.copies[c]))
    case Requeue(c) => Move(s, c, Ready)
    case ExpireTtl(c) => Put(s, c, s.copies[c].(msg := Hopped(s.copies[c].msg, ExpiredFromRetry), place := Ready))
    // The shovel removes a dead letter only after the main queue confirmed its copy.
    case ShovelCopy(c) => Add(Move(s, c, Dead(true)), s.copies[c].origin, s.copies[c].msg, Ready)
    case ShovelAck(c) => Remove(s, c)
  }

  predicate Init(s: State) {
    s.maxAttempts >= 1 && s.copies == map[] && s.arrived == map[] && s.seen == {} && s.rows == map[]
  }

  predicate Runs(s: State, acts: seq<Action>)
    decreases |acts|
  {
    acts == [] || (Enabled(s, acts[0]) && Runs(Apply(s, acts[0]), acts[1..]))
  }

  function Final(s: State, acts: seq<Action>): State
    requires Runs(s, acts)
    decreases |acts|
  {
    if acts == [] then s else Final(Apply(s, acts[0]), acts[1..])
  }
}

/** What every reachable state of the protocol satisfies. */
module BrokerInvariant {
  import opened Common
  import opened OrderEvent
  import opened Deaths
  import opened Messages
  import opened Consumer
  import opened Broker
  import Uuid

  /** The row of the event this body carries exists. */
  ghost predicate HasRow(s: State, content: Content) {
    WellFormed(content) && EventKey(ParseOrderCreated(content).value) in s.rows
  }

  /** The copy is waiting to be settled after its handler decided to dead-letter it. */
  predicate DeadLettering(place: Place) {
    place == Unacked(AwaitConfirm) || place == Unacked(Fallback) || place == Unacked(Parked)
  }

  ghost predicate PlaceOk(s: State, copy: Copy) {
    && (copy.place.Unacked? ==> copy.origin in s.seen)
    && (copy.place == Unacked(Recorded) ==> HasRow(s, copy.msg.content))
    && (copy.place.Unacked? && copy.place.phase.Failing? ==>
          copy.place.phase.failure ==
          match ParseOrderCreated(copy.msg.content)
          case Err(cause) => Permanent(cause)
          case Ok(_) => Transient)
    && (copy.place.Dead? ==> Failures(copy.msg) == 0 && copy.msg.failedAttempts.Some?)
    && (DeadLettering(copy.place) && WellFormed(copy.msg.content) ==> Failures(copy.msg) + 1 >= s.maxAttempts)
  }

  ghost predicate CountsOk(s: State, copy: Copy) {
    && Failures(copy.msg) == copy.base + copy.rejections
    && (WellFormed(copy.msg.content) ==> copy.dlqFailures <= copy.rejections <= s.maxAttempts - 1 + copy.dlqFailures)
    && (!WellFormed(copy.msg.content) ==> copy.rejections == copy.dlqFailures)
  }

  ghost predicate CopyOk(s: State, c: CopyId)
    requires c in s.copies
  {
    var copy := s.copies[c];
    && c < s.next
    && copy.origin in s.arrived && s.arrived[copy.origin] == copy.msg.content
    && CountsOk(s, copy)
    && PlaceOk(s, copy)
  }

  /** A copy that nobody is about to remove on the strength of another copy or of the row. */
  predicate Firm(place: Place) {
    place != Unacked(Recorded) && place != Unacked(AwaitConfirm) && place != Unacked(Parked) && place != Dead(true)
  }

  ghost predicate FirmAt(s: State, c: CopyId, origin: Origin) {
    c in s.copies && s.copies[c].origin == origin && Firm(s.copies[c].place)
  }

  /** The message is recorded, or some queue holds a firm copy of it. */
  ghost predicate Kept(s: State, origin: Origin)
    requires origin in s.arrived
  {
    HasRow(s, s.arrived[origin]) || exists c :: FirmAt(s, c, origin)
  }

  /** A row was written for an event that arrived, with that event's order and user. */
  ghost predicate RowOf(s: State, e: string, origin: Origin)
    requires e in s.rows
  {
    && origin in s.arrived && WellFormed(s.arrived[origin])
    && var event := ParseOrderCreated(s.arrived[origin]).value;
    && EventKey(event) == e && s.rows[e] == Row(Uuid.Canonical(event.orderId), Uuid.Canonical(event.userId))
  }

  ghost predicate RowOk(s: State, e: string)
    requires e in s.rows
  {
    exists origin :: RowOf(s, e, origin)
  }

  ghost predicate Inv(s: State) {
    && s.maxAttempts >= 1
    && (forall c :: c in s.copies ==> CopyOk(s, c))
    && (forall origin :: origin in s.arrived ==> Kept(s, origin))
    && (forall e :: e in s.rows ==> RowOk(s, e))
  }

  lemma InitInv(s: State)
    requires Init(s)
    ensures Inv(s)
  {
  }

  // Preservation: a step changes one copy, adds at most one, and only adds rows.

  ghost predicate Extends(s: State, s': State) {
    && s'.maxAttempts == s.maxAttempts && s'.next >= s.next
    && (forall o :: o in s.arrived ==> o in s'.arrived && s'.arrived[o] == s.arrived[o])
    && s.seen <= s'.seen
    && (forall e :: e in s.rows ==> e in s'.rows && s'.rows[e] == s.rows[e])
  }

  lemma CopyFrame(s: State, s': State, c: CopyId)
    requires c in s.copies && CopyOk(s, c) && Extends(s, s') && c in s'.copies && s'.copies[c] == s.copies[c]
    ensures CopyOk(s', c)
  {
    hide ParseOrderCreated, FailedAttempts, Uuid.Canonical;
  }

  lemma RowFrame(s: State, s': State, e: string)
    requires e in s.rows && RowOk(s, e) && Extends(s, s')
    ensures RowOk(s', e)
  {
    hide ParseOrderCreated, Uuid.Canonical;
    var origin :| RowOf(s, e, origin);
    assert RowOf(s', e, origin);
  }

  lemma InsertRow(s: State, content: Content, reply: RecordReply, origin: Origin)
    requires origin in s.arrived && s.arrived[origin] == content
    requires forall e :: e in s.rows ==> RowOk(s, e)
    ensures var s' := s.(rows := RowsAfter(s, content, reply));
            && Extends(s, s') && (forall e :: e in s'.rows ==> RowOk(s', e))
            && (WellFormed(content) && reply != Lost(false) ==> HasRow(s', content))
  {
    hide ParseOrderCreated, Uuid.Canonical;
    var s' := s.(rows := RowsAfter(s, content, reply));
    assert Extends(s, s');
    forall e | e in s'.rows
      ensures RowOk(s', e)
    {
      if e in s.rows {
        RowFrame(s, s', e);
      } else {
        assert RowOf(s', e, origin);
      }
    }
  }

  /** Every message stays kept when each firm copy that disappears leaves a row or another firm copy behind. */
  lemma KeptFrame(s: State, s': State, c: CopyId, d: CopyId)
    requires Extends(s, s') && c in s.copies
    requires forall x :: x in s.copies && x != c ==> x in s'.copies && s'.copies[x] == s.copies[x]
    requires forall o :: o in s.arrived ==> Kept(s, o)
    requires Firm(s.copies[c].place) ==>
               || FirmAt(s', c, s.copies[c].origin) || FirmAt(s', d, s.copies[c].origin)
               || (s.copies[c].origin in s'.arrived && HasRow(s', s'.arrived[s.copies[c].origin]))
    requires s'.arrived == s.arrived
    ensures forall o :: o in s'.arrived ==> Kept(s', o)
  {
    hide ParseOrderCreated, Uuid.Canonical;
    forall o | o in s'.arrived
      ensures Kept(s', o)
    {
      if !HasRow(s, s.arrived[o]) {
        var x :| FirmAt(s, x, o);
        assert x != c ==> FirmAt(s', x, o);
      }
    }
  }

  /** One copy is replaced, rows and `seen` may grow. */
  lemma ReplaceInv(s: State, s': State, c: CopyId)
    requires Inv(s) && Extends(s, s') && c in s.copies && c in s'.copies
    requires s'.copies == s.copies[c := s'.copies[c]] && s'.arrived == s.arrived
    requires CopyOk(s', c) && s'.copies[c].origin == s.copies[c].origin
    requires Firm(s.copies[c].place) ==> Firm(s'.copies[c].place) || HasRow(s', s.copies[c].msg.content)
    requires forall e :: e in s'.rows ==> RowOk(s', e)
    ensures Inv(s')
  {
    hide ParseOrderCreated, Uuid.Canonical, FailedAttempts, HasRow, RowOk, CountsOk, PlaceOk, Kept;
    assert CopyOk(s, c);
    forall x | x in s'.copies
      ensures CopyOk(s', x)
    {
      if x != c {
        CopyFrame(s, s', x);
      }
    }
    KeptFrame(s, s', c, c);
  }

  /** One copy is replaced and a new one added for the same message. */
  lemma ReplaceAndAddInv(s: State, s': State, c: CopyId)
    requires Inv(s) && Extends(s, s') && c in s.copies && c in s'.copies && s.next in s'.copies && c < s.next
    requires s'.copies == s.copies[c := s'.copies[c]][s.next := s'.copies[s.next]]
    requires s'.arrived == s.arrived && s'.rows == s.rows
    requires CopyOk(s', c) && CopyOk(s', s.next)
    requires s'.copies[s.next].origin == s.copies[c].origin && Firm(s'.copies[s.next].place)
    ensures Inv(s')
  {
    hide ParseOrderCreated, Uuid.Canonical, FailedAttempts, HasRow, CountsOk, PlaceOk, Kept;
    forall x | x in s'.copies
      ensures CopyOk(s', x)
    {
      if x != c && x != s.next {
        CopyFrame(s, s', x);
      }
    }
    assert forall x :: x in s.copies ==> CopyOk(s, x);
    KeptFrame(s, s', c, s.next);
    forall e | e in s'.rows
      ensures RowOk(s', e)
    {
      RowFrame(s, s', e);
    }
  }

  /** A copy that is not firm can be removed. */
  lemma RemoveInv(s: State, c: CopyId)
    requires Inv(s) && c in s.copies && !Firm(s.copies[c].place)
    ensures Inv(Remove(s, c))
  {
    hide ParseOrderCreated, Uuid.Canonical, FailedAttempts, HasRow, CountsOk, PlaceOk, Kept;
    var s' := Remove(s, c);
    forall x | x in s'.copies
      ensures CopyOk(s', x)
    {
      CopyFrame(s, s', x);
    }
    KeptFrame(s, s', c, c);
    forall e | e in s'.rows
      ensures RowOk(s', e)
    {
      RowFrame(s, s', e);
    }
  }

  lemma ArriveKept(s: State, origin: Origin, msg: Message, o: Origin)
    requires Inv(s) && Enabled(s, Arrive(origin, msg)) && o in Apply(s, Arrive(origin, msg)).arrived
    ensures Kept(Apply(s, Arrive(origin, msg)), o)
  {
    hide ParseOrderCreated, Uuid.Canonical, FailedAttempts, CountsOk, PlaceOk, RowOk;
    var s' := Apply(s, Arrive(origin, msg));
    if o == origin {
      assert FirmAt(s', s.next, o);
    } else if !HasRow(s, s.arrived[o]) {
      var x :| FirmAt(s, x, o);
      assert CopyOk(s, x);
      assert FirmAt(s', x, o);
    }
  }

  lemma ArriveInv(s: State, origin: Origin, msg: Message)
    requires Inv(s) && Enabled(s, Arrive(origin, msg))
    ensures Inv(Apply(s, Arrive(origin, msg)))
  {
    hide ParseOrderCreated, Uuid.Canonical, FailedAttempts, Kept, RowOk;
    var s' := Apply(s, Arrive(origin, msg));
    assert Extends(s, s');
    forall x | x in s'.copies
      ensures CopyOk(s', x)
    {
      if x != s.next {
        CopyFrame(s, s', x);
      }
    }
    forall o | o in s'.arrived {
      ArriveKept(s, origin, msg, o);
    }
    forall e | e in s'.rows
      ensures RowOk(s', e)
    {
      RowFrame(s, s', e);
    }
  }

  lemma RecordInv(s: State, c: CopyId, reply: RecordReply)
    requires Inv(s) && Enabled(s, Record(c, reply))
    ensures Inv(Apply(s, Record(c, reply)))
  {
    hide ParseOrderCreated, Uuid.Canonical, FailedAttempts, RowOk, Kept;
    var s' := Apply(s, Record(c, reply));
    assert CopyOk(s, c);
    InsertRow(s, s.copies[c].msg.content, reply, s.copies[c].origin);
    var s1 := s.(rows := s'.rows);
    assert Extends(s, s') && HasRow(s', s.copies[c].msg.content) == HasRow(s1, s.copies[c].msg.content);
    RowsOnly(s1, s');
    ReplaceInv(s, s', c);
  }

  /** Row invariants depend on the rows and the arrivals alone. */
  lemma RowsOnly(s: State, s': State)
    requires s'.rows == s.rows && s'.arrived == s.arrived
    requires forall e :: e in s.rows ==> RowOk(s, e)
    ensures forall e :: e in s'.rows ==> RowOk(s', e)
  {
    hide ParseOrderCreated, Uuid.Canonical;
    forall e | e in s'.rows
      ensures RowOk(s', e)
    {
      var origin :| RowOf(s, e, origin);
      assert RowOf(s', e, origin);
    }
  }

  lemma LateRecordInv(s: State, origin: Origin)
    requires Inv(s) && Enabled(s, LateRecord(origin))
    ensures Inv(Apply(s, LateRecord(origin)))
  {
    hide ParseOrderCreated, Uuid.Canonical, FailedAttempts, RowOk;
    var s' := Apply(s, LateRecord(origin));
    InsertRow(s, s.arrived[origin], Answered, origin);
    forall x | x in s'.copies
      ensures CopyOk(s', x)
    {
      CopyFrame(s, s', x);
    }
    forall o | o in s'.arrived
      ensures Kept(s', o)
    {
      if !HasRow(s, s.arrived[o]) {
        var x :| FirmAt(s, x, o);
        assert FirmAt(s', x, o);
      }
    }
  }

  /** The copy being dead-lettered and the dead letter are in order. */
  lemma DeadLetteringIsOk(s: State, c: CopyId, reached: bool)
    requires Enabled(s, PublishDlq(c, reached)) && CopyOk(s, c) && s.maxAttempts >= 1
    ensures var s' := Apply(s, PublishDlq(c, reached));
            && c < s.next && c in s'.copies && CopyOk(s', c)
            && (reached ==> s.next in s'.copies && CopyOk(s', s.next))
  {
    hide ParseOrderCreated, Uuid.Canonical, FailedAttempts, RowOk, Kept;
    HopCounts(s.copies[c].msg);
  }

  lemma PublishDlqInv(s: State, c: CopyId, reached: bool)
    requires Inv(s) && Enabled(s, PublishDlq(c, reached))
    ensures Inv(Apply(s, PublishDlq(c, reached)))
  {
    hide ParseOrderCreated, Uuid.Canonical, FailedAttempts, RowOk, Kept, CopyOk;
    var s' := Apply(s, PublishDlq(c, reached));
    assert CopyOk(s, c);
    DeadLetteringIsOk(s, c, reached);
    if reached {
      ReplaceAndAddInv(s, s', c);
    } else {
      RowsOnly(s, s');
      ReplaceInv(s, s', c);
    }
  }

  lemma ShovelCopyInv(s: State, c: CopyId)
    requires Inv(s) && Enabled(s, ShovelCopy(c))
    ensures Inv(Apply(s, ShovelCopy(c)))
  {
    hide ParseOrderCreated, Uuid.Canonical, FailedAttempts, RowOk, Kept;
    assert CopyOk(s, c);
    ReplaceAndAddInv(s, Apply(s, ShovelCopy(c)), c);
  }

  lemma SettleInv(s: State, c: CopyId)
    requires Inv(s) && Enabled(s, SettleIt(c))
    ensures Inv(Apply(s, SettleIt(c)))
  {
    hide ParseOrderCreated, Uuid.Canonical, FailedAttempts, RowOk, Kept;
    if In(s, c, Recorded) || In(s, c, Parked) {
      RemoveInv(s, c);
    } else {
      var s' := Apply(s, SettleIt(c));
      assert CopyOk(s, c);
      HopCounts(s.copies[c].msg);
      RowsOnly(s, s');
      ReplaceInv(s, s', c);
    }
  }

  lemma ExpireInv(s: State, c: CopyId)
    requires Inv(s) && Enabled(s, ExpireTtl(c))
    ensures Inv(Apply(s, ExpireTtl(c)))
  {
    hide ParseOrderCreated, Uuid.Canonical, FailedAttempts, RowOk, Kept;
    var s' := Apply(s, ExpireTtl(c));
    assert CopyOk(s, c);
    HopCounts(s.copies[c].msg);
    RowsOnly(s, s');
    ReplaceInv(s, s', c);
  }

  /** A copy that moves within the main queue keeps its counts. */
  lemma MovedIsOk(s: State, s': State, c: CopyId)
    requires c in s.copies && CopyOk(s, c) && c in s'.copies && Extends(s, s')
    requires s'.copies[c] == s.copies[c].(place := s'.copies[c].place) && PlaceOk(s', s'.copies[c])
    ensures CopyOk(s', c)
  {
    hide ParseOrderCreated, FailedAttempts;
  }

  /** Delivery, confirmation and requeue move one copy and leave its message alone. */
  lemma MoveInv(s: State, a: Action)
    requires Inv(s) && Enabled(s, a) && (a.Deliver? || a.ConfirmDlq? || a.Requeue?)
    ensures Inv(Apply(s, a))
  {
    hide ParseOrderCreated, Uuid.Canonical, FailedAttempts, Failures, RowOk, Kept, CountsOk, HasRow;
    var s' := Apply(s, a);
    assert CopyOk(s, a.c);
    MovedIsOk(s, s', a.c);
    RowsOnly(s, s');
    ReplaceInv(s, s', a.c);
  }

  lemma InvStep(s: State, a: Action)
    requires Inv(s) && Enabled(s, a)
    ensures Inv(Apply(s, a))
  {
    hide Inv;
    match a
    case Arrive(origin, msg) => ArriveInv(s, origin, msg);
    case Record(c, reply) => RecordInv(s, c, reply);
    case LateRecord(origin) => LateRecordInv(s, origin);
    case PublishDlq(c, reached) => PublishDlqInv(s, c, reached);
    case SettleIt(c) => SettleInv(s, c);
    case ShovelCopy(c) => ShovelCopyInv(s, c);
    case ShovelAck(c) => RemoveInv(s, c);
    case ExpireTtl(c) => ExpireInv(s, c);
    case _ => MoveInv(s, a);
  }

  lemma {:induction false} InvRun(s: State, acts: seq<Action>)
    requires Inv(s) && Runs(s, acts)
    ensures Inv(Final(s, acts))
    decreases |acts|
  {
    hide Inv;
    if acts != [] {
      InvStep(s, acts[0]);
      InvRun(Apply(s, acts[0]), acts[1..]);
    }
  }
}
