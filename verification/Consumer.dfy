/** The message as the worker sees it, and the decisions it takes on a failure. */
module Messages {
  import opened Common
  import opened OrderEvent
  import opened Deaths
  import Topology

  datatype FailureReason = PermanentReason(cause: ParseError) | GaveUp(attempts: nat)

  /** `deaths` is the `x-death` header (None when absent or not an array), `others` the headers nobody interprets. */
  datatype Message = Message(
    content: Content,
    deaths: Option<seq<Death>>,
    failureReason: Option<FailureReason>,
    failedAttempts: Option<nat>,
    others: map<string, string>)

  function DeathsOf(m: Message): seq<Death> {
    if m.deaths.Some? then m.deaths.value else []
  }

  /** failedAttempts */
  function Failures(m: Message): nat {
    FailedAttempts(DeathsOf(m))
  }

  /** The message after one hop of the retry loop. */
  function Hopped(m: Message, hop: Hop): Message {
    m.(deaths := Some(AfterHop(DeathsOf(m), hop)))
  }

  /** deadLetter: the copy published to the dead-letter queue keeps the body and foreign headers, drops `x-death`. */
  function DeadLetterCopy(m: Message, reason: FailureReason): Message {
    Message(m.content, None, Some(reason), Some(Failures(m) + 1), m.others)
  }

  datatype Failure = Permanent(cause: ParseError) | Transient

  datatype Decision = Retry | DeadLetter(reason: FailureReason)

  /** handleFailure: malformed messages and the last allowed attempt go to the dead-letter queue. */
  function Decide(failure: Failure, failed: nat, maxAttempts: nat): Decision {
    match failure
    case Permanent(cause) => DeadLetter(PermanentReason(cause))
    case Transient => if failed + 1 >= maxAttempts then DeadLetter(GaveUp(failed + 1)) else Retry
  }

  /**
   A hop of the retry loop counts exactly the rejections and changes nothing but the header; the dead-letter copy
   starts from zero.
   */
  lemma HopCounts(m: Message)
    ensures forall hop :: Hopped(m, hop) == Message(m.content, Hopped(m, hop).deaths, m.failureReason, m.failedAttempts, m.others)
    ensures Failures(Hopped(m, RejectedFromMain)) == Failures(m) + 1
    ensures Failures(Hopped(m, ExpiredFromRetry)) == Failures(m)
    ensures forall reason :: Failures(DeadLetterCopy(m, reason)) == 0
  {
    CounterRefinesRejections(DeathsOf(m), [RejectedFromMain]);
    CounterRefinesRejections(DeathsOf(m), [ExpiredFromRetry]);
    assert AfterHops(DeathsOf(m), [RejectedFromMain]) == AfterHop(DeathsOf(m), RejectedFromMain) by {
      assert [RejectedFromMain][1..] == [];
    }
    assert AfterHops(DeathsOf(m), [ExpiredFromRetry]) == AfterHop(DeathsOf(m), ExpiredFromRetry) by {
      assert [ExpiredFromRetry][1..] == [];
    }
  }
}

/**
 One delivery, from `handleMessage` to its settlement
 (services/notification-worker/src/messaging/consumer.service.ts,
 services/notification-worker/src/notifications/notifications.service.ts).
 What the broker and the database answer, and whether the channel closes while the handler waits, are parameters.
 */
module Consumer {
  import opened Common
  import opened OrderEvent
  import opened Messages
  import opened Uuid

  datatype Settlement = Ack | Nack

  datatype Row = Row(orderId: string, userId: string)

  /** The insert answers, or fails; a failed insert may have been stored nevertheless. */
  datatype RecordReply = Answered | Lost(stored: bool)

  datatype Confirm = Confirmed | Refused | TimedOut

  datatype Outcome = Processed | Duplicate | Retried | DeadLettered | DeadLetterFailed

  datatype Environment = Environment(
    record: RecordReply,
    closesDuringRecord: bool,
    confirm: Confirm,
    closesDuringConfirm: bool)

  function EventKey(e: Event): string {
    Canonical(e.eventId)
  }

  /** INSERT ... ON CONFLICT (event_id) DO NOTHING; the columns are `uuid`. */
  function Insert(rows: map<string, Row>, e: Event): map<string, Row> {
    if EventKey(e) in rows then rows else rows[EventKey(e) := Row(Canonical(e.orderId), Canonical(e.userId))]
  }

  /** The table after recording the events one after the other. */
  function InsertAll(rows: map<string, Row>, events: seq<Event>): map<string, Row> {
    if events == [] then rows else Insert(InsertAll(rows, events[..|events| - 1]), events[|events| - 1])
  }

  /** Event `i` is the first of the events with id `key`. */
  ghost predicate IsFirst(events: seq<Event>, key: string, i: int) {
    && 0 <= i < |events| && Canonical(events[i].eventId) == key
    && forall j :: 0 <= j < i ==> Canonical(events[j].eventId) != key
  }

  /**
   However often and in whatever order events are recorded: a known row never changes, any other id gets exactly the
   row of the first event that carries it, and an id that no event carries gets none.
   */
  lemma {:induction false} FirstRecordWins(rows: map<string, Row>, events: seq<Event>, key: string)
    ensures var after := InsertAll(rows, events);
            && (key in rows ==> key in after && after[key] == rows[key])
            && (key !in rows && key in after ==>
                  exists i :: IsFirst(events, key, i) && after[key] == Row(Canonical(events[i].orderId), Canonical(events[i].userId)))
            && (key !in after ==> forall j :: 0 <= j < |events| ==> Canonical(events[j].eventId) != key)
  {
    hide Canonical;
    if events != [] {
      var n := |events| - 1;
      var fewer := events[..n];
      FirstRecordWins(rows, fewer, key);
      if key !in rows {
        if key in InsertAll(rows, fewer) {
          var i :| IsFirst(fewer, key, i)
                   && InsertAll(rows, fewer)[key] == Row(Canonical(fewer[i].orderId), Canonical(fewer[i].userId));
          assert IsFirst(events, key, i);
        } else if EventKey(events[n]) == key {
          assert IsFirst(events, key, n);
        }
      }
    }
  }

  /** An AMQP channel: `settlements` and `sent` are what reached the broker. Every call on a closed channel throws. */
  class Channel {
    var open: bool
    var settlements: seq<Settlement>
    var sent: seq<Message>

    constructor ()
      ensures open && settlements == [] && sent == []
    {
      open, settlements, sent := true, [], [];
    }

    method Settle(how: Settlement) returns (ok: bool)
      modifies this`settlements
      ensures ok == open
      ensures settlements == old(settlements) + if open then [how] else []
    {
      ok := open;
      if open {
        settlements := settlements + [how];
      }
    }

    method PublishToDlq(m: Message) returns (ok: bool)
      modifies this`sent
      ensures ok == open
      ensures sent == old(sent) + if open then [m] else []
    {
      ok := open;
      if open {
        sent := sent + [m];
      }
    }

    method Close()
      modifies this`open
      ensures !open
    {
      open := false;
    }
  }

  class Notifications {
    var rows: map<string, Row>

    constructor ()
      ensures rows == map[]
    {
      rows := map[];
    }

    /** record: Some(true) for a new row, Some(false) for a known event, None when it throws. */
    method Record(event: Event, reply: RecordReply) returns (inserted: Option<bool>)
      modifies this
      ensures rows == if reply == Lost(false) then old(rows) else Insert(old(rows), event)
      ensures inserted == if reply == Answered then Some(EventKey(event) !in old(rows)) else None
      ensures inserted.Some? ==> EventKey(event) in rows
      ensures forall e :: e in old(rows) ==> e in rows && rows[e] == old(rows)[e]
    {
      inserted := if reply == Answered then Some(EventKey(event) !in rows) else None;
      if reply != Lost(false) {
        rows := Insert(rows, event);
      }
    }
  }

  /** The failure `handleMessage` runs into, None when the message is recorded. */
  function FailureOf(m: Message, record: RecordReply): Option<Failure> {
    var parsed := ParseOrderCreated(m.content);
    if parsed.Err? then Some(Permanent(parsed.error))
    else if record == Answered then None
    else Some(Transient)
  }

  // What the documentation of the worker promises for a delivery on a channel that stays open, by outcome.

  /**
   What goes to the dead-letter queue: a malformed message at once, with the reason it cannot be read; a message that
   could not be recorded with its last attempt, with the number of attempts; nothing else. Body and foreign headers are
   the delivery's own, the broker's `x-death` is dropped, and the attempts made are counted.
   */
  function ExpectedDlq(m: Message, env: Environment, maxAttempts: nat): seq<Message> {
    var attempts := Failures(m) + 1;
    match ParseOrderCreated(m.content)
    case Err(cause) => [Message(m.content, None, Some(PermanentReason(cause)), Some(attempts), m.others)]
    case Ok(_) =>
      if env.record == Answered || attempts < maxAttempts then []
      else [Message(m.content, None, Some(GaveUp(attempts)), Some(attempts), m.others)]
  }

  /** The settlement: acknowledged when recorded or safely dead-lettered, rejected otherwise. */
  function Expected(m: Message, env: Environment, maxAttempts: nat): Settlement {
    if ExpectedDlq(m, env, maxAttempts) != [] then (if env.confirm == Confirmed then Ack else Nack)
    else if env.record == Answered then Ack
    else Nack
  }

  class ConsumerService {
    const notifications: Notifications
    const maxAttempts: nat

    constructor (notifications: Notifications, maxAttempts: nat)
      ensures this.notifications == notifications && this.maxAttempts == maxAttempts
    {
      this.notifications := notifications;
      this.maxAttempts := maxAttempts;
    }

    /** deadLetter: false when it throws. The ack comes only after the broker confirmed the copy. */
    method DeadLetterMessage(ch: Channel, m: Message, reason: FailureReason, env: Environment) returns (ok: bool)
      modifies ch
      ensures ch.open == (old(ch.open) && !env.closesDuringConfirm)
      ensures ch.sent == old(ch.sent) +
                         if old(ch.open) then [Message(m.content, None, Some(reason), Some(Failures(m) + 1), m.others)] else []
      ensures ok == (ch.open && env.confirm == Confirmed)
      ensures ch.settlements == old(ch.settlements) + if ok then [Ack] else []
    {
      ok := ch.PublishToDlq(DeadLetterCopy(m, reason));
      if env.closesDuringConfirm {
        ch.Close();
      }
      if ok && env.confirm == Confirmed {
        ok := ch.Settle(Ack);
      } else {
        ok := false;
      }
    }

    method HandleFailure(ch: Channel, m: Message, failure: Failure, env: Environment) returns (outcome: Option<Outcome>)
      modifies ch
      ensures var attempts := Failures(m) + 1;
              var retry := failure.Transient? && attempts < maxAttempts;
              && ch.open == (old(ch.open) && (retry || !env.closesDuringConfirm))
              && (ch.open ==>
                    && ch.settlements == old(ch.settlements) + [if !retry && env.confirm == Confirmed then Ack else Nack]
                    && outcome == Some(if retry then Retried else if env.confirm == Confirmed then DeadLettered else DeadLetterFailed)
                    && ch.sent == old(ch.sent) +
                       if retry then []
                       else [Message(m.content, None,
                                     Some(if failure.Permanent? then PermanentReason(failure.cause) else GaveUp(attempts)),
                                     Some(attempts), m.others)])
      ensures !ch.open ==> |ch.settlements| <= |old(ch.settlements)| + 1 && old(ch.settlements) <= ch.settlements
      ensures !old(ch.open) ==> ch.settlements == old(ch.settlements) && ch.sent == old(ch.sent) && outcome == None
      ensures outcome != Some(Processed) && outcome != Some(Duplicate)
    {
      var decision := Decide(failure, Failures(m), maxAttempts);
      match decision {
        case DeadLetter(reason) =>
          var done := DeadLetterMessage(ch, m, reason, env);
          if done {
            return Some(DeadLettered);
          }
        case Retry =>
          var done := ch.Settle(Nack);
          if done {
            return Some(Retried);
          }
      }
      var nacked := ch.Settle(Nack);
      outcome := if nacked then Some(DeadLetterFailed) else None;
    }

    /**
     handleMessage. On a channel that stays open the delivery gets exactly one settlement, the expected one, and
     exactly the expected dead-letter copy; on a channel that closes while the handler waits, nothing more than one
     settlement reaches the broker. The row is stored at most once, and only for a well-formed message.
     */
    method HandleMessage(ch: Channel, m: Message, env: Environment) returns (outcome: Option<Outcome>)
      modifies ch, notifications
      ensures ch.open ==> ch.settlements == old(ch.settlements) + [Expected(m, env, maxAttempts)]
      ensures ch.open ==> ch.sent == old(ch.sent) + ExpectedDlq(m, env, maxAttempts)
      ensures ch.open ==> outcome.Some?
      ensures old(ch.settlements) <= ch.settlements && |ch.settlements| <= |old(ch.settlements)| + 1
      ensures var parsed := ParseOrderCreated(m.content);
              notifications.rows == if parsed.Err? || env.record == Lost(false) then old(notifications.rows)
                                    else Insert(old(notifications.rows), parsed.value)
      ensures ch.open ==>
                outcome == Some(
                  if ExpectedDlq(m, env, maxAttempts) != [] then (if env.confirm == Confirmed then DeadLettered else DeadLetterFailed)
                  else if env.record != Answered then Retried
                  else if EventKey(ParseOrderCreated(m.content).value) in old(notifications.rows) then Duplicate
                  else Processed)
      ensures outcome == Some(Processed) ==>
                ParseOrderCreated(m.content).Ok? && EventKey(ParseOrderCreated(m.content).value) !in old(notifications.rows)
      ensures outcome == Some(Duplicate) ==> notifications.rows == old(notifications.rows)
      // The channel stays open exactly when it was open and did not close at a wait the handler went through.
      ensures ch.open == (old(ch.open)
                          && !(WellFormed(m.content) && env.closesDuringRecord)
                          && !(ExpectedDlq(m, env, maxAttempts) != [] && env.closesDuringConfirm))
    {
      var failure: Failure;
      var parsed := ParseOrderCreated(m.content);
      if parsed.Ok? {
        var inserted := notifications.Record(parsed.value, env.record);
        if env.closesDuringRecord {
          ch.Close();
        }
        if inserted.Some? {
          var acked := ch.Settle(Ack);
          if acked {
            return Some(if inserted.value then Processed else Duplicate);
          }
        }
        failure := Transient;
      } else {
        failure := Permanent(parsed.error);
      }
      outcome := HandleFailure(ch, m, failure, env);
    }
  }
}
