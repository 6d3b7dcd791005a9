/**
 * The notification service's side of the broker: connect with `prefetch(1)`,
 * subscribe to the queue with manual acknowledgement, and settle every
 * delivery once, after the reading processor has run on it. The callback
 * the service passes to `consumeMessages` is `processReading`, so the
 * handler here calls `AlertConsumer.ProcessReading`.
 */
module NotificationBroker {
  import opened Wrappers
  import opened Amqp
  import opened Thresholds
  import opened AlertConsumer

  /** The consumer's prefetch window. */
  const Prefetch: nat := 1

  /** The message `consumeMessages` throws when there is no channel. */
  const ChannelNotAvailable: string := "RabbitMQ channel not available"

  /** What amqplib throws for any operation on a closed channel. */
  const ChannelClosed: string := "Channel closed"

  /** A subscription as `channel.consume` registered it. */
  datatype Subscription = Subscription(channel: nat, queue: string, noAck: bool)

  /** A delivery: its tag on the channel and its body as text. */
  datatype Delivery = Delivery(tag: nat, content: string)

  /** What the handler tells the channel about a delivery. */
  datatype Settlement =
    | Ack(channel: nat, tag: nat)
    | Nack(channel: nat, tag: nat, requeue: bool)

  /**
   * What one invocation of the delivery handler does: the settlements it
   * sends, the processor's effect on the store if the processor ran, and
   * whether the handler's promise rejects.
   */
  datatype Handling = Handling(settled: seq<Settlement>, processed: Option<Outcome>, rejected: bool)

  /**
   * `channel?.ack(msg)` and `channel?.nack(msg, false, false)` throw on a
   * closed channel: the ack's error lands in the catch block, whose nack
   * throws again out of the handler, so nothing is settled.
   */
  predicate SettleThrows(channel: Option<Channel>) {
    channel.Some? && !channel.value.open
  }

  /**
   * `channel?.ack(msg)` / `channel?.nack(msg, false, false)`: sent on the
   * channel the variable holds when the handler settles, not at all when it
   * holds none, and not at all when that channel is closed (`SettleThrows`).
   */
  function Settle(channel: Option<Channel>, tag: nat, succeeded: bool): seq<Settlement> {
    if channel.None? || SettleThrows(channel) then []
    else if succeeded then [Ack(channel.value.connection, tag)]
    else [Nack(channel.value.connection, tag, false)]
  }

  /**
   * The delivery handler: a null delivery is ignored; a body that does not
   * parse is rejected; otherwise the processor runs and its outcome decides
   * between ack and nack.
   */
  function Handle(channel: Option<Channel>, msg: Option<Delivery>, parse: string -> Option<Reading>,
                  sensors: seq<SensorConfig>, q: nat, failing: set<nat>): Handling
  {
    if msg.None? then Handling([], None, false)
    else
      var parsed := parse(msg.value.content);
      if parsed.None? then Handling(Settle(channel, msg.value.tag, false), None, SettleThrows(channel))
      else
        var o := Process(sensors, parsed.value, q, failing);
        Handling(Settle(channel, msg.value.tag, o.result.Ok?), Some(o), SettleThrows(channel))
  }

  /** The notification service's broker module state. */
  class Broker {
    var connection: Option<Connection>
    var channel: Option<Channel>
    var pendingRetries: nat
    var watched: set<nat>
    var nextId: nat
    var subscription: Option<Subscription>
    var settlements: seq<Settlement>
    const queue: string

    /** The link part of the state. */
    function State(): Link
      reads this
    {
      Link(connection, channel, pendingRetries, watched, nextId)
    }

    /** Module load: both variables null, the queue name read from the environment. */
    constructor(env: Option<string>)
      ensures State() == Initial && queue == QueueName(env)
      ensures subscription == None && settlements == []
    {
      connection := None;
      channel := None;
      pendingRetries := 0;
      watched := {};
      nextId := 0;
      subscription := None;
      settlements := [];
      queue := QueueName(env);
    }

    /** `connectRabbitMQ`, with the step that rejects (if any) as input. */
    method ConnectRabbitMQ(failsAt: Option<Step>)
      modifies this
      ensures State() == Connect(old(State()), failsAt, queue, Some(Prefetch))
      ensures subscription == old(subscription) && settlements == old(settlements)
    {
      if failsAt == Some(OpenConnection) {
        pendingRetries := pendingRetries + 1;
        return;
      }
      var id := nextId;
      connection := Some(Connection(id, true));
      nextId := nextId + 1;
      if failsAt == Some(CreateChannel) {
        pendingRetries := pendingRetries + 1;
        return;
      }
      channel := Some(Channel(id, None, None, true));
      if failsAt == Some(AssertQueue) {
        pendingRetries := pendingRetries + 1;
        return;
      }
      channel := Some(Channel(id, Some(QueueDecl(queue, true)), None, true));
      if failsAt == Some(SetPrefetch) {
        pendingRetries := pendingRetries + 1;
        return;
      }
      channel := Some(Channel(id, Some(QueueDecl(queue, true)), Some(Prefetch), true));
      watched := watched + {id};
    }

    /** A pending reconnect timer fires. */
    method RetryFires(failsAt: Option<Step>)
      requires pendingRetries > 0
      modifies this
      ensures State() == Next(old(State()), TimerFires(failsAt), queue, Some(Prefetch))
      ensures subscription == old(subscription) && settlements == old(settlements)
    {
      pendingRetries := pendingRetries - 1;
      ConnectRabbitMQ(failsAt);
    }

    /** Connection `id` closes; a registered close handler schedules a reconnect. */
    method ConnectionLost(id: nat)
      modifies this
      ensures State() == ConnectionClosed(old(State()), id)
      ensures subscription == old(subscription) && settlements == old(settlements)
    {
      if connection.Some? && connection.value.id == id {
        connection := Some(connection.value.(open := false));
      }
      if channel.Some? && channel.value.connection == id {
        channel := Some(channel.value.(open := false));
      }
      if id in watched {
        pendingRetries := pendingRetries + 1;
      }
    }

    /**
     * `consumeMessages`: with no channel it throws `ChannelNotAvailable` and
     * registers nothing; a `consume` that rejects (a closed channel, or
     * `consumeFails`) is rethrown; otherwise the handler is subscribed with
     * manual acknowledgement.
     */
    method ConsumeMessages(consumeFails: bool) returns (r: Result<(), string>)
      modifies this`subscription
      ensures old(channel).None? ==> r == Err(ChannelNotAvailable) && subscription == old(subscription)
      ensures r.Ok? <==> channel.Some? && channel.value.open && !consumeFails
      ensures r.Ok? ==> subscription == Some(Subscription(channel.value.connection, queue, false))
      ensures r.Err? ==> subscription == old(subscription)
    {
      if channel.None? {
        return Err(ChannelNotAvailable);
      }
      if !channel.value.open || consumeFails {
        return Err(ChannelClosed);
      }
      subscription := Some(Subscription(channel.value.connection, queue, false));
      return Ok(());
    }

    /**
     * The handler `consumeMessages` registers, run on one delivery with the
     * processor as callback. `parse` stands for `JSON.parse` of the body.
     * It answers `Err(ChannelClosed)` when its promise rejects.
     */
    method HandleMessage(msg: Option<Delivery>, parse: string -> Option<Reading>, db: Database)
      returns (r: Result<(), string>)
      modifies this`settlements, db
      ensures var h := Handle(channel, msg, parse, old(db.sensors), old(db.issued), db.failing);
        && settlements == old(settlements) + h.settled
        && (r.Err? <==> h.rejected)
        && (r.Err? ==> r.error == ChannelClosed)
        && (h.processed.None? ==> db.readings == old(db.readings) && db.alerts == old(db.alerts) && db.issued == old(db.issued))
        && (h.processed.Some? ==>
              && db.readings == old(db.readings) + h.processed.value.readings
              && db.alerts == old(db.alerts) + h.processed.value.alerts
              && db.issued == old(db.issued) + h.processed.value.queries)
      ensures db.sensors == old(db.sensors)
    {
      r := Ok(());
      if msg.None? {
        return;
      }
      var parsed := parse(msg.value.content);
      if parsed.None? {
        r := SendNack(msg.value.tag);
        return;
      }
      var processed, _ := ProcessReading(db, parsed.value);
      if processed.Ok? {
        if channel.Some? && !channel.value.open {
          // The ack throws; the catch block's nack throws again.
          r := Err(ChannelClosed);
        } else if channel.Some? {
          settlements := settlements + [Ack(channel.value.connection, msg.value.tag)];
        }
      } else {
        r := SendNack(msg.value.tag);
      }
    }

    /** `channel?.nack(msg, false, false)`, which throws on a closed channel. */
    method SendNack(tag: nat) returns (r: Result<(), string>)
      modifies this`settlements
      ensures settlements == old(settlements) + Settle(channel, tag, false)
      ensures r.Err? <==> SettleThrows(channel)
      ensures r.Err? ==> r.error == ChannelClosed
    {
      r := Ok(());
      if channel.Some? {
        if !channel.value.open {
          r := Err(ChannelClosed);
        } else {
          settlements := settlements + [Nack(channel.value.connection, tag, false)];
        }
      }
    }

    /** `closeRabbitMQ`: never throws; see `CloseAll`. */
    method CloseRabbitMQ(channelCloseFails: bool, connectionCloseFails: bool)
      modifies this
      ensures State() == CloseAll(old(State()), channelCloseFails, connectionCloseFails)
      ensures subscription == old(subscription) && settlements == old(settlements)
    {
      if channel.Some? {
        if channelCloseFails {
          return;
        }
        channel := Some(channel.value.(open := false));
      }
      if connection.Some? && !connectionCloseFails {
        ConnectionLost(connection.value.id);
      }
    }
  }

  // Properties of the handler.

  /** A null delivery is neither acked nor nacked, and the processor does not run. */
  lemma NullDeliveryIgnored(channel: Option<Channel>, parse: string -> Option<Reading>,
                            sensors: seq<SensorConfig>, q: nat, failing: set<nat>)
    ensures Handle(channel, None, parse, sensors, q, failing) == Handling([], None, false)
  {
  }

  /**
   * With an open channel, every delivery is settled exactly once: acked when
   * the body parses and the processor returns normally, otherwise nacked
   * without requeue. Never both, and the handler returns normally.
   */
  lemma SettledExactlyOnce(c: Channel, d: Delivery, parse: string -> Option<Reading>,
                           sensors: seq<SensorConfig>, q: nat, failing: set<nat>)
    requires c.open
    ensures var h := Handle(Some(c), Some(d), parse, sensors, q, failing);
      var succeeded := parse(d.content).Some? && Process(sensors, parse(d.content).value, q, failing).result.Ok?;
      && |h.settled| == 1 && !h.rejected
      && (succeeded <==> h.settled == [Ack(c.connection, d.tag)])
      && (!succeeded <==> h.settled == [Nack(c.connection, d.tag, false)])
  {
  }

  /**
   * A delivery that arrives after its channel closed (the connection dropped
   * while the processor was awaiting a query) settles nothing: the ack or
   * nack throws "Channel closed" and the handler's promise rejects. The
   * processor still ran on a body that parses.
   */
  lemma ClosedChannelSettlesNothing(c: Channel, d: Delivery, parse: string -> Option<Reading>,
                                    sensors: seq<SensorConfig>, q: nat, failing: set<nat>)
    requires !c.open
    ensures var h := Handle(Some(c), Some(d), parse, sensors, q, failing);
      && h.settled == [] && h.rejected
      && (h.processed.Some? <==> parse(d.content).Some?)
  {
  }

  /** A body that does not parse is nacked without requeue, and nothing is stored. */
  lemma UnparsableNacked(c: Channel, d: Delivery, parse: string -> Option<Reading>,
                         sensors: seq<SensorConfig>, q: nat, failing: set<nat>)
    requires c.open && parse(d.content).None?
    ensures Handle(Some(c), Some(d), parse, sensors, q, failing) == Handling([Nack(c.connection, d.tag, false)], None, false)
  {
  }

  /** End to end: a reading for an unknown sensor is acked and writes nothing. */
  lemma UnknownSensorAcked(c: Channel, d: Delivery, parse: string -> Option<Reading>,
                           sensors: seq<SensorConfig>, q: nat, failing: set<nat>, reading: Reading)
    requires c.open && parse(d.content) == Some(reading)
    requires q !in failing
    requires forall i :: 0 <= i < |sensors| ==> sensors[i].sensorId != reading.sensorId
    ensures var h := Handle(Some(c), Some(d), parse, sensors, q, failing);
      && h.settled == [Ack(c.connection, d.tag)] && !h.rejected
      && h.processed.Some? && h.processed.value.readings == [] && h.processed.value.alerts == []
  {
    UnknownSensorWritesNothing(sensors, reading, q, failing);
  }

  /**
   * End to end: a reading for a known sensor whose processing meets a failing
   * query (the lookup, the reading insert or an alert insert) is nacked
   * without requeue.
   */
  lemma StoreErrorNacked(ch: Channel, d: Delivery, parse: string -> Option<Reading>,
                         sensors: seq<SensorConfig>, q: nat, failing: set<nat>, reading: Reading,
                         c: SensorConfig, m: nat)
    requires ch.open && parse(d.content) == Some(reading)
    requires FindSensor(sensors, reading.sensorId) == Some(c)
    requires q <= m < q + 2 + |Evaluate(c, reading)| && m in failing
    ensures var h := Handle(Some(ch), Some(d), parse, sensors, q, failing);
      h.settled == [Nack(ch.connection, d.tag, false)] && !h.rejected
  {
    FailureIsRethrown(sensors, reading, q, failing, c, m);
  }

  /**
   * End to end: with every query succeeding, a reading for a known sensor is
   * acked after the reading and exactly the raised alerts are stored.
   */
  lemma HealthyReadingAcked(ch: Channel, d: Delivery, parse: string -> Option<Reading>,
                            sensors: seq<SensorConfig>, q: nat, failing: set<nat>, reading: Reading,
                            c: SensorConfig)
    requires ch.open && parse(d.content) == Some(reading)
    requires FindSensor(sensors, reading.sensorId) == Some(c)
    requires forall k :: q <= k < q + 4 ==> k !in failing
    ensures var h := Handle(Some(ch), Some(d), parse, sensors, q, failing);
      && h.settled == [Ack(ch.connection, d.tag)] && !h.rejected
      && h.processed.Some?
      && h.processed.value.readings == [StoredReading(reading.sensorId, reading.temperature, reading.humidity)]
      && h.processed.value.alerts == Evaluate(c, reading)
  {
    AllStoredWhenNothingFails(sensors, reading, q, failing, c);
  }

  // Properties of the connection life cycle.

  /** A successful connect declares the queue durable and sets prefetch to 1. */
  lemma ConnectedChannelReady(s: Link, queue: string)
    ensures var r := Connect(s, None, queue, Some(Prefetch));
      && r.channel.Some? && r.channel.value.open
      && r.channel.value.queue == Some(QueueDecl(queue, true))
      && r.channel.value.prefetch == Some(1)
  {
  }
}
