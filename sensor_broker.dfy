/**
 * The sensor service's side of the broker: connect (no prefetch), publish
 * readings as persistent JSON messages, close. `publishMessage` never
 * throws: a missing channel or any exception gives `false`.
 */
module SensorBroker {
  import opened Wrappers
  import opened JsValues
  import opened Amqp

  /** The content type every message carries. */
  const ContentType: string := "application/json"

  /** A message `sendToQueue` accepted, with the options it was given. */
  datatype Publication = Publication(
    queue: string,
    message: Value,
    persistent: bool,
    contentType: string,
    timestamp: int)

  /**
   * What one `publishMessage` call sends: nothing without a channel, nothing
   * when `sendToQueue` throws (a closed channel, or `sendFails`), otherwise
   * one persistent JSON message to the queue stamped `now`.
   */
  function Send(channel: Option<Channel>, queue: string, message: Value, sendFails: bool, now: int): (sent: seq<Publication>)
    ensures |sent| <= 1
    ensures channel.None? ==> sent == []
    ensures sent != [] <==> channel.Some? && channel.value.open && !sendFails
    ensures sent != [] ==>
      && sent[0].queue == queue && sent[0].message == message
      && sent[0].persistent && sent[0].contentType == ContentType && sent[0].timestamp == now
  {
    if channel.None? || !channel.value.open || sendFails then []
    else [Publication(queue, message, true, ContentType, now)]
  }

  /** The sensor service's broker module state. */
  class Broker {
    var connection: Option<Connection>
    var channel: Option<Channel>
    var pendingRetries: nat
    var watched: set<nat>
    var nextId: nat
    var published: seq<Publication>
    const queue: string

    /** The link part of the state. */
    function State(): Link
      reads this
    {
      Link(connection, channel, pendingRetries, watched, nextId)
    }

    /** Module load: both variables null, the queue name read from the environment. */
    constructor(env: Option<string>)
      ensures State() == Initial && queue == QueueName(env) && published == []
    {
      connection := None;
      channel := None;
      pendingRetries := 0;
      watched := {};
      nextId := 0;
      published := [];
      queue := QueueName(env);
    }

    /** `connectRabbitMQ`, with the step that rejects (if any) as input; there is no prefetch step. */
    method ConnectRabbitMQ(failsAt: Option<Step>)
      modifies this
      ensures State() == Connect(old(State()), failsAt, queue, None)
      ensures published == old(published)
    {
      if failsAt == Some(OpenConnection) {
        pendingRetries := pendingRetries + 1;
        return;
      }
      var id := nextId;
      connection := Some(Connection(id, true));
      nextId := nextId + 1;
      if failsAt == Some(CreateChannel) {
        pendingRetries := pendingRetries + 1;
        return;
      }
      channel := Some(Channel(id, None, None, true));
      if failsAt == Some(AssertQueue) {
        pendingRetries := pendingRetries + 1;
        return;
      }
      channel := Some(Channel(id, Some(QueueDecl(queue, true)), None, true));
      watched := watched + {id};
    }

    /** A pending reconnect timer fires. */
    method RetryFires(failsAt: Option<Step>)
      requires pendingRetries > 0
      modifies this
      ensures State() == Next(old(State()), TimerFires(failsAt), queue, None)
      ensures published == old(published)
    {
      pendingRetries := pendingRetries - 1;
      ConnectRabbitMQ(failsAt);
    }

    /** Connection `id` closes; a registered close handler schedules a reconnect. */
    method ConnectionLost(id: nat)
      modifies this
      ensures State() == ConnectionClosed(old(State()), id)
      ensures published == old(published)
    {
      if connection.Some? && connection.value.id == id {
        connection := Some(connection.value.(open := false));
      }
      if channel.Some? && channel.value.connection == id {
        channel := Some(channel.value.(open := false));
      }
      if id in watched {
        pendingRetries := pendingRetries + 1;
      }
    }

    /**
     * `publishMessage`: false without a channel, false when sending throws,
     * true once the message is handed to `sendToQueue`.
     */
    method PublishMessage(message: Value, sendFails: bool, now: int) returns (ok: bool)
      modifies this`published
      ensures published == old(published) + Send(channel, queue, message, sendFails, now)
      ensures ok <==> Send(channel, queue, message, sendFails, now) != []
    {
      if channel.None? {
        return false;
      }
      if !channel.value.open || sendFails {
        return false;
      }
      published := published + [Publication(queue, message, true, ContentType, now)];
      return true;
    }

    /** `closeRabbitMQ`: never throws; see `CloseAll`. */
    method CloseRabbitMQ(channelCloseFails: bool, connectionCloseFails: bool)
      modifies this
      ensures State() == CloseAll(old(State()), channelCloseFails, connectionCloseFails)
      ensures published == old(published)
    {
      if channel.Some? {
        if channelCloseFails {
          return;
        }
        channel := Some(channel.value.(open := false));
      }
      if connection.Some? && !connectionCloseFails {
        ConnectionLost(connection.value.id);
      }
    }
  }

  /** A successful connect declares the queue durable and sets no prefetch. */
  lemma ConnectedChannelReady(s: Link, queue: string)
    ensures var r := Connect(s, None, queue, None);
      && r.channel.Some? && r.channel.value.open
      && r.channel.value.queue == Some(QueueDecl(queue, true))
      && r.channel.value.prefetch == None
  {
  }

  /** Once the service has closed its link, publishing returns false and sends nothing. */
  lemma NoPublishAfterClose(s: Link, queue: string, message: Value, sendFails: bool, now: int)
    requires s.channel.Some?
    ensures Send(CloseAll(s, false, false).channel, queue, message, sendFails, now) == []
  {
  }
}
