/**
 The lazily connecting publisher of order-service (services/order-service/src/infra/event-publisher.service.ts).
 Each method is one uninterrupted stretch of the code: a call, the continuation of an await, or an event handler.
 The fields after `opening` record what the broker side and the callers saw.
 */
module Publisher {
  import opened Common

  type Conn = nat
  type Chan = nat
  /** One call of `publish` that waits for a channel. */
  type Caller = nat

  /** Where the `open()` in progress is waiting. */
  datatype Opening =
    | Connecting
    | CreatingChannel(conn: Conn)
    | Abandoning(conn: Conn)

  datatype Outcome = Opened(channel: Chan) | OpenFailed

  class EventPublisher {
    var conn: Option<Conn>
    var channel: Option<Chan>
    var opening: Option<Opening>

    /** Connections by how they came about: opened by `open()` with a close handler, or late and handler-less. */
    var handled: set<Conn>
    var late: set<Conn>
    var closeRequested: set<Conn>
    var closed: set<Conn>
    var owner: map<Chan, Conn>
    var closedChannels: set<Chan>
    /** connect() calls that lost the race against the outer timer and have not settled yet. */
    var unsettled: nat

    /** `open()` calls started and settled, what each settled with, and who waits for or got which one. */
    var started: nat
    var settled: nat
    var results: map<nat, Outcome>
    var waiting: set<Caller>
    var joined: map<Caller, nat>
    var answers: map<Caller, Outcome>
    /** Connections that were dropped: stored and alive when another one took, or cleared, their place. */
    var dropped: set<Conn>
    /** Channels handed over after the close of their connection was reported. */
    var bornDead: set<Chan>

    constructor ()
      ensures Valid() && dropped == {} && bornDead == {}
      ensures conn == None && channel == None && opening == None && handled == {} && late == {}
      ensures closeRequested == {} && closed == {} && owner == map[] && closedChannels == {} && joined == map[]
    {
      conn, channel, opening := None, None, None;
      handled, late, closeRequested, closed, owner, closedChannels, unsettled := {}, {}, {}, {}, map[], {}, 0;
      started, settled, results, waiting, joined, answers := 0, 0, map[], {}, map[], map[];
      dropped, bornDead := {}, {};
    }

    /** The connection `open()` is working on, if it has one. */
    ghost predicate Opens(c: Conn)
      reads this
    {
      opening == Some(CreatingChannel(c)) || opening == Some(Abandoning(c))
    }

    /** The connection is alive as far as the publisher was told, and nobody asked to close it. */
    predicate Alive(c: Conn)
      reads this
    {
      c in handled && c !in closed && c !in closeRequested
    }

    /** The stored connection, if it is alive: what would be forgotten if the field were overwritten. */
    function AtStake(): set<Conn>
      reads this
    {
      if conn.Some? && Alive(conn.value) then {conn.value} else {}
    }

    /** The connection is forgotten: alive, but neither stored nor being opened. */
    ghost predicate Forgot(c: Conn)
      reads this
    {
      Alive(c) && conn != Some(c) && !Opens(c)
    }

    ghost function Forgotten(): set<Conn>
      reads this
    {
      set c | c in handled && Forgot(c)
    }

    /** The stored channel's connection is known to be closed: every publish fails, and none reconnects. */
    ghost predicate Dead()
      reads this
    {
      channel.Some? && conn.Some? && conn.value in closed
    }

    /**
     The stored channel belongs to the stored connection and has not been reported closed; and its connection has been
     reported closed exactly when it was handed over too late.
     */
    ghost predicate ChannelOk()
      reads this
    {
      && (channel.Some? ==>
            && conn.Some? && channel.value in owner && owner[channel.value] == conn.value
            && channel.value !in closedChannels
            && (Dead() <==> channel.value in bornDead))
      && (conn.Some? ==> conn.value in handled)
      && (forall ch :: ch in owner ==> owner[ch] in handled)
      && bornDead <= owner.Keys
    }

    /** At most one open() is in progress, it has waiters, and everyone who joined an open() gets its one result. */
    ghost predicate SingleFlight()
      reads this`opening, this`started, this`settled, this`results, this`waiting, this`joined, this`answers
    {
      && started == settled + (if opening.Some? then 1 else 0)
      && (opening.Some? <==> waiting != {})
      && (forall n :: n in results ==> n <= settled)
      && (forall w :: w in waiting ==> w in joined && joined[w] == started && w !in answers)
      && (forall w :: w in joined ==> w in waiting || w in answers)
      && (forall w :: w in answers ==> w in joined && joined[w] in results && answers[w] == results[joined[w]])
    }

    ghost predicate OpeningOk()
      reads this
    {
      && (opening.Some? ==> channel.None?)
      && (forall c :: Opens(c) ==> c in handled && conn != Some(c))
      && (forall c :: opening == Some(Abandoning(c)) ==> c in closeRequested)
    }

    /** The forgotten connections are the dropped ones, as long as they live; late ones are always closed. */
    ghost predicate ForgottenOk()
      reads this
    {
      && late <= closeRequested && dropped <= handled
      && (forall c :: c in handled ==> (Forgot(c) <==> c in dropped && c !in closed))
    }

    ghost predicate Valid()
      reads this
    {
      ChannelOk() && SingleFlight() && OpeningOk() && ForgottenOk()
    }

    /** getChannel: the stored channel, or a place among those waiting for the one open() in progress. */
    method GetChannel(w: Caller) returns (now: Option<Chan>)
      requires Valid() && w !in joined
      modifies this`opening, this`started, this`waiting, this`joined
      ensures Valid()
      ensures Forgotten() == old(Forgotten()) && Dead() == old(Dead())
      ensures now == old(channel)
      ensures now.Some? ==> opening == old(opening) && started == old(started)
      ensures now.None? ==> w in waiting && joined == old(joined)[w := started]
      ensures old(opening).Some? ==> opening == old(opening) && started == old(started)
      ensures now.None? && old(opening).None? ==> opening == Some(Connecting) && started == old(started) + 1
    {
      now := channel;
      if channel.None? {
        if opening.None? {
          opening, started := Some(Connecting), started + 1;
        }
        waiting, joined := waiting + {w}, joined[w := started];
      }
      assert forall c :: Forgot(c) <==> old(Forgot(c));
    }

    /** The `finally` of open(): the flight is over and everyone who waited gets its result. */
    method Settle(outcome: Outcome)
      requires opening.Some? && SingleFlight()
      modifies this`opening, this`settled, this`results, this`answers, this`waiting
      ensures opening == None && waiting == {} && settled == started
      ensures SingleFlight()
      ensures forall w :: w in old(waiting) ==> w in answers && answers[w] == outcome
      ensures forall w :: w in old(answers) ==> w in answers && answers[w] == old(answers)[w]
    {
      answers := map w | w in waiting + answers.Keys :: if w in waiting then outcome else answers[w];
      results := results[started := outcome];
      settled, opening, waiting := started, None, {};
    }

    method ConnectSucceeds(c: Conn)
      requires Valid() && opening == Some(Connecting) && c !in handled && c !in late && c !in closed
      modifies this`opening, this`handled
      ensures Valid() && opening == Some(CreatingChannel(c)) && handled == old(handled) + {c}
      ensures Forgotten() == old(Forgotten()) && Dead() == old(Dead())
    {
      handled, opening := handled + {c}, Some(CreatingChannel(c));
    }

    /** connect() failed, or the outer timer won and the attempt is still pending. */
    method ConnectFails(timedOut: bool)
      requires Valid() && opening == Some(Connecting)
      modifies this`opening, this`settled, this`results, this`answers, this`waiting, this`unsettled
      ensures Valid() && opening == None && unsettled == old(unsettled) + if timedOut then 1 else 0
      ensures Forgotten() == old(Forgotten()) && Dead() == old(Dead())
      ensures forall w :: w in old(waiting) ==> w in answers && answers[w] == OpenFailed
    {
      hide SingleFlight;
      if timedOut {
        unsettled := unsettled + 1;
      }
      Settle(OpenFailed);
    }

    /** A connection that arrives after the timer gave up is closed at once and never stored. */
    method LateConnect(c: Conn)
      requires Valid() && unsettled > 0 && c !in handled && c !in late
      modifies this`late, this`closeRequested, this`unsettled
      ensures Valid() && c in late && c in closeRequested && unsettled == old(unsettled) - 1
      ensures Forgotten() == old(Forgotten()) && Dead() == old(Dead())
    {
      hide SingleFlight;
      late, closeRequested, unsettled := late + {c}, closeRequested + {c}, unsettled - 1;
    }

    /**
     The new pair replaces whatever was stored: a live connection there is forgotten. The channel is dead exactly when
     its connection's close was reported first.
     */
    method ChannelCreated(ch: Chan)
      requires Valid() && opening.Some? && opening.value.CreatingChannel? && ch !in owner && ch !in closedChannels
      modifies this`conn, this`channel, this`owner, this`opening, this`settled, this`results, this`answers, this`waiting
      modifies this`dropped, this`bornDead
      ensures Valid() && opening == None
      ensures channel == Some(ch) && conn == Some(old(opening).value.conn) && owner == old(owner)[ch := conn.value]
      ensures forall w :: w in old(waiting) ==> w in answers && answers[w] == Opened(ch)
      ensures Forgotten() == old(Forgotten()) + old(AtStake())
      ensures Dead() <==> old(opening).value.conn in closed
    {
      hide SingleFlight;
      var c := opening.value.conn;
      Settle(Opened(ch));
      StorePair(c, ch);
    }

    /** The assignments at the end of open(). */
    method StorePair(c: Conn, ch: Chan)
      requires ChannelOk() && opening.None? && c in handled && conn != Some(c) && (c in dropped ==> c in closed)
      requires ch !in owner && ch !in closedChannels && late <= closeRequested && dropped <= handled
      requires forall d :: d in handled && d != c ==> (Forgot(d) <==> d in dropped && d !in closed)
      modifies this`conn, this`channel, this`owner, this`dropped, this`bornDead
      ensures ChannelOk() && ForgottenOk()
      ensures channel == Some(ch) && conn == Some(c) && owner == old(owner)[ch := c] && (Dead() <==> c in closed)
      ensures Forgotten() == old(Forgotten()) - {c} + old(AtStake())
    {
      dropped := dropped + AtStake();
      if c in closed {
        bornDead := bornDead + {ch};
      }
      owner := owner[ch := c];
      conn, channel := Some(c), Some(ch);
    }

    method ChannelFails()
      requires Valid() && opening.Some? && opening.value.CreatingChannel?
      modifies this`opening, this`closeRequested
      ensures Valid() && opening == Some(Abandoning(old(opening).value.conn))
      ensures closeRequested == old(closeRequested) + {old(opening).value.conn}
      ensures Forgotten() == old(Forgotten()) && Dead() == old(Dead())
    {
      closeRequested, opening := closeRequested + {opening.value.conn}, Some(Abandoning(opening.value.conn));
    }

    method AbandonReturns()
      requires Valid() && opening.Some? && opening.value.Abandoning?
      modifies this`opening, this`settled, this`results, this`answers, this`waiting
      ensures Valid() && opening == None
      ensures forall w :: w in old(waiting) ==> w in answers && answers[w] == OpenFailed
      ensures Forgotten() == old(Forgotten()) && Dead() == old(Dead())
    {
      hide SingleFlight;
      Settle(OpenFailed);
    }

    /**
     The close handler of a connection made by open(): it clears both fields, whichever connection they belong to, and
     forgets a live one.
     */
    method OnConnectionClosed(c: Conn)
      requires Valid() && c in handled && c !in closed
      modifies this`conn, this`channel, this`closed, this`closedChannels, this`dropped
      ensures Valid() && conn == None && channel == None
      ensures closed == old(closed) + {c}
      ensures closedChannels == old(closedChannels) + set ch | ch in owner && owner[ch] == c
      ensures Forgotten() == old(Forgotten()) + old(AtStake()) - {c}
    {
      hide SingleFlight;
      closedChannels := closedChannels + set ch | ch in owner && owner[ch] == c;
      ClearFields(c);
    }

    method ClearFields(c: Conn)
      requires c in handled && ForgottenOk() && (conn.Some? ==> !Opens(conn.value))
      modifies this`conn, this`channel, this`closed, this`dropped
      ensures conn == None && channel == None && closed == old(closed) + {c} && ForgottenOk()
      ensures Forgotten() == old(Forgotten()) + old(AtStake()) - {c}
    {
      dropped := dropped + (AtStake() - {c});
      closed := closed + {c};
      conn, channel := None, None;
    }

    /** The close handler of a channel: it clears only its own entry. */
    method OnChannelClosed(ch: Chan)
      requires Valid() && ch in owner && ch !in closedChannels
      modifies this`channel, this`closedChannels
      ensures Valid() && closedChannels == old(closedChannels) + {ch}
      ensures channel == if old(channel) == Some(ch) then None else old(channel)
      ensures Forgotten() == old(Forgotten()) && (Dead() <==> old(Dead()) && old(channel) != Some(ch))
    {
      hide SingleFlight;
      closedChannels := closedChannels + {ch};
      if channel == Some(ch) {
        channel := None;
      }
    }

    /** onModuleDestroy: the stored connection is closed, and no other. */
    method Destroy()
      requires Valid()
      modifies this`closeRequested
      ensures Valid() && closeRequested == old(closeRequested) + if conn.Some? then {conn.value} else {}
      ensures Forgotten() == old(Forgotten()) && Dead() == old(Dead())
    {
      hide SingleFlight;
      if conn.Some? {
        closeRequested := closeRequested + {conn.value};
      }
    }
  }

  /** Anything that can happen to the publisher; an event that cannot happen in the current state is ignored. */
  datatype Event =
    | Ask(w: Caller)
    | Connected(c: Conn)
    | Unconnected(timedOut: bool)
    | Late(c: Conn)
    | GotChannel(ch: Chan)
    | NoChannel
    | Abandoned
    | ConnectionClosed(c: Conn)
    | ChannelClosed(ch: Chan)
    | Shutdown

  /**
   Under every order of calls, replies and close events: callers that joined the same open() get the same result, the
   stored channel belongs to the stored connection, the live connections neither stored nor being opened are exactly
   the dropped ones, and a stored channel is dead exactly when it was handed over after its connection's close.
   */
  method Drive(p: EventPublisher, events: seq<Event>)
    requires p.Valid()
    modifies p
    ensures p.Valid()
    ensures forall v, w :: v in p.answers && w in p.answers && p.joined[v] == p.joined[w] ==> p.answers[v] == p.answers[w]
    ensures forall c :: c in p.handled && c !in p.closed && c !in p.closeRequested ==>
              (c in p.dropped <==> p.conn != Some(c) && !p.Opens(c))
    ensures p.channel.Some? ==>
              && p.conn == Some(p.owner[p.channel.value]) && p.channel.value !in p.closedChannels
              && (p.conn.value in p.closed <==> p.channel.value in p.bornDead)
  {
    for i := 0 to |events|
      invariant p.Valid()
    {
      match events[i] {
        case Ask(w) =>
          if w !in p.joined {
            var _ := p.GetChannel(w);
          }
        case Connected(c) =>
          if p.opening == Some(Connecting) && c !in p.handled && c !in p.late && c !in p.closed {
            p.ConnectSucceeds(c);
          }
        case Unconnected(timedOut) =>
          if p.opening == Some(Connecting) {
            p.ConnectFails(timedOut);
          }
        case Late(c) =>
          if p.unsettled > 0 && c !in p.handled && c !in p.late {
            p.LateConnect(c);
          }
        case GotChannel(ch) =>
          if p.opening.Some? && p.opening.value.CreatingChannel? && ch !in p.owner && ch !in p.closedChannels {
            p.ChannelCreated(ch);
          }
        case NoChannel =>
          if p.opening.Some? && p.opening.value.CreatingChannel? {
            p.ChannelFails();
          }
        case Abandoned =>
          if p.opening.Some? && p.opening.value.Abandoning? {
            p.AbandonReturns();
          }
        case ConnectionClosed(c) =>
          if c in p.handled && c !in p.closed {
            p.OnConnectionClosed(c);
          }
        case ChannelClosed(ch) =>
          if ch in p.owner && ch !in p.closedChannels {
            p.OnChannelClosed(ch);
          }
        case Shutdown =>
          p.Destroy();
      }
    }
    assert forall c :: c in p.handled ==> (p.Forgot(c) <==> c in p.dropped && c !in p.closed);
  }

  /** The first publish: one connection, one channel. */
  method FirstChannel() returns (p: EventPublisher)
    ensures fresh(p) && p.Valid() && p.conn == Some(1) && p.channel == Some(10) && p.opening == None
    ensures p.handled == {1} && p.late == {} && p.closed == {} && p.closeRequested == {} && p.Forgotten() == {}
    ensures p.owner == map[10 := 1] && p.closedChannels == {} && p.joined.Keys == {0}
  {
    hide *;
    p := new EventPublisher();
    NoneForgotten(p);
    var now := p.GetChannel(0);
    p.ConnectSucceeds(1);
    NoneAtStake(p);
    p.ChannelCreated(10);
  }

  /** A channel that dies alone leaves its connection stored. */
  method ChannelDiesAlone() returns (p: EventPublisher)
    ensures fresh(p) && p.Valid() && p.conn == Some(1) && p.channel == None && p.opening == None
    ensures p.handled == {1} && p.late == {} && p.closed == {} && p.closeRequested == {} && p.Forgotten() == {}
    ensures p.owner == map[10 := 1] && p.closedChannels == {10} && p.joined.Keys == {0}
  {
    hide *;
    p := FirstChannel();
    p.OnChannelClosed(10);
  }

  lemma NoneForgotten(p: EventPublisher)
    requires p.handled == {}
    ensures p.Forgotten() == {}
  {
  }

  lemma NoneAtStake(p: EventPublisher)
    requires p.conn == None
    ensures p.AtStake() == {}
  {
  }

  /** A live stored connection is what the next change of the fields forgets. */
  lemma LiveIsAtStake(p: EventPublisher, c: Conn)
    requires p.conn == Some(c) && c in p.handled && c !in p.closed && c !in p.closeRequested
    ensures p.AtStake() == {c}
  {
  }

  /** One live connection too many: the next publish opens another and forgets the first. */
  method LeaksAConnection() returns (p: EventPublisher)
    ensures fresh(p) && p.Valid() && p.conn == Some(2) && p.channel == Some(20) && p.Forgotten() == {1}
    ensures p.handled == {1, 2} && p.closed == {} && p.closeRequested == {}
  {
    hide *;
    p := ChannelDiesAlone();
    var now := p.GetChannel(1);
    p.ConnectSucceeds(2);
    LiveIsAtStake(p, 1);
    p.ChannelCreated(20);
  }

  /** The close of the forgotten connection clears, and forgets, the one in use. */
  method StaleCloseForgets() returns (p: EventPublisher)
    ensures p.Valid() && p.conn == None && p.channel == None && p.Forgotten() == {2} && 2 !in p.closed
  {
    hide *;
    p := LeaksAConnection();
    LiveIsAtStake(p, 2);
    p.OnConnectionClosed(1);
  }

  /** A connection that closes just before its channel arrives is stored: the next caller is handed a dead channel. */
  method StoresADeadChannel() returns (p: EventPublisher, now: Option<Chan>)
    ensures p.Valid() && p.channel == Some(10) && p.conn == Some(1) && 1 in p.closed && p.opening == None
    ensures now == Some(10)
  {
    hide *;
    p := new EventPublisher();
    now := p.GetChannel(0);
    p.ConnectSucceeds(1);
    p.OnConnectionClosed(1);
    p.ChannelCreated(10);
    now := p.GetChannel(1);
  }
}
