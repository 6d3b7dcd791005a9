/**
 * The broker link both services keep: the module-level `connection` and
 * `channel` variables, the reconnect timers `connectRabbitMQ` schedules, and
 * the connections whose `close` event is watched. The transport itself is an
 * abstract object: each step of a connect attempt either succeeds or rejects,
 * and the step that rejects is an input.
 *
 * The two services run the same connect sequence; the consumer adds a
 * `prefetch(1)` step, the producer has none. Both classes share the
 * functions here as their specification.
 */
module Amqp {
  import opened Wrappers

  /** The queue name when the environment does not override it. */
  const DefaultQueue: string := "sensor_data"

  /** Delay before a scheduled reconnect, in milliseconds (kept as documentation; timers are counted, not timed). */
  const ReconnectDelayMs: nat := 5000

  /**
   * `RABBITMQ_QUEUE_SENSOR_DATA || 'sensor_data'`: an absent or empty
   * override falls back to the default, so the name is never empty.
   */
  function QueueName(env: Option<string>): (name: string)
    ensures name != ""
    ensures env.Some? && env.value != "" ==> name == env.value
    ensures env.None? || env.value == "" ==> name == DefaultQueue
  {
    if env.Some? && env.value != "" then env.value else DefaultQueue
  }

  /** The awaited steps of a connect attempt, in order. */
  datatype Step = OpenConnection | CreateChannel | AssertQueue | SetPrefetch

  /** A queue declaration as `assertQueue` made it. */
  datatype QueueDecl = QueueDecl(name: string, durable: bool)

  /** A connection, named by the attempt that opened it. */
  datatype Connection = Connection(id: nat, open: bool)

  /** A channel on connection `connection`, with what the connect sequence set on it. */
  datatype Channel = Channel(connection: nat, queue: Option<QueueDecl>, prefetch: Option<nat>, open: bool)

  /**
   * The module state: the two variables, the number of reconnect timers
   * pending, the connections with a `close` handler, and the id the next
   * connection gets.
   */
  datatype Link = Link(
    connection: Option<Connection>,
    channel: Option<Channel>,
    pendingRetries: nat,
    watched: set<nat>,
    nextId: nat)

  /** The state a service starts from: both variables null, nothing pending. */
  const Initial: Link := Link(None, None, 0, {}, 0)

  /**
   * Whether an attempt whose step `failsAt` rejects fails at all: a service
   * without a prefetch step cannot fail there.
   */
  predicate Fails(failsAt: Option<Step>, prefetch: Option<nat>) {
    failsAt.Some? && (failsAt.value != SetPrefetch || prefetch.Some?)
  }

  /**
   * One run of `connectRabbitMQ`. Every step assigns as it goes, so a later
   * rejection leaves the new connection (and channel) in the variables; the
   * catch schedules one reconnect. Only a complete run registers the close
   * handler.
   */
  function Connect(s: Link, failsAt: Option<Step>, queue: string, prefetch: Option<nat>): (r: Link)
    ensures !Fails(failsAt, prefetch) ==>
      && r.connection == Some(Connection(s.nextId, true))
      && r.channel == Some(Channel(s.nextId, Some(QueueDecl(queue, true)), prefetch, true))
      && r.watched == s.watched + {s.nextId}
      && r.pendingRetries == s.pendingRetries
    ensures Fails(failsAt, prefetch) ==>
      r.pendingRetries == s.pendingRetries + 1 && r.watched == s.watched
    ensures failsAt == Some(OpenConnection) ==> r.connection == s.connection && r.channel == s.channel
    ensures failsAt == Some(CreateChannel) ==> r.connection == Some(Connection(s.nextId, true)) && r.channel == s.channel
    ensures r.nextId >= s.nextId
  {
    if failsAt == Some(OpenConnection) then
      s.(pendingRetries := s.pendingRetries + 1)
    else
      var s1 := s.(connection := Some(Connection(s.nextId, true)), nextId := s.nextId + 1);
      if failsAt == Some(CreateChannel) then
        s1.(pendingRetries := s.pendingRetries + 1)
      else if failsAt == Some(AssertQueue) then
        s1.(channel := Some(Channel(s.nextId, None, None, true)), pendingRetries := s.pendingRetries + 1)
      else
        var declared := Channel(s.nextId, Some(QueueDecl(queue, true)), None, true);
        if Fails(failsAt, prefetch) then
          s1.(channel := Some(declared), pendingRetries := s.pendingRetries + 1)
        else
          s1.(channel := Some(declared.(prefetch := prefetch)), watched := s.watched + {s.nextId})
  }

  /**
   * Connection `id` closes (the broker, the network, or the service's own
   * close). Its channel closes with it; the variables keep pointing at both.
   * If its close handler was registered, one reconnect is scheduled.
   */
  function ConnectionClosed(s: Link, id: nat): (r: Link)
    ensures id in s.watched ==> r.pendingRetries == s.pendingRetries + 1
    ensures id !in s.watched ==> r.pendingRetries == s.pendingRetries
    ensures r.watched == s.watched && r.nextId == s.nextId
    ensures r.connection.Some? <==> s.connection.Some?
    ensures r.channel.Some? <==> s.channel.Some?
    ensures r.connection.Some? && r.connection.value.id == id ==> !r.connection.value.open
    ensures r.channel.Some? && r.channel.value.connection == id ==> !r.channel.value.open
    // the variables still name the same connection and channel, with what the connect set on it
    ensures s.connection.Some? ==> r.connection.value.id == s.connection.value.id
    ensures s.channel.Some? ==>
      && r.channel.value.connection == s.channel.value.connection
      && r.channel.value.queue == s.channel.value.queue
      && r.channel.value.prefetch == s.channel.value.prefetch
    // a close of some other connection leaves them as they were
    ensures s.connection.Some? && s.connection.value.id != id ==> r.connection == s.connection
    ensures s.channel.Some? && s.channel.value.connection != id ==> r.channel == s.channel
  {
    var conn := if s.connection.Some? && s.connection.value.id == id
      then Some(s.connection.value.(open := false)) else s.connection;
    var chan := if s.channel.Some? && s.channel.value.connection == id
      then Some(s.channel.value.(open := false)) else s.channel;
    s.(connection := conn, channel := chan,
       pendingRetries := if id in s.watched then s.pendingRetries + 1 else s.pendingRetries)
  }

  /**
   * `closeRabbitMQ`: close the channel, then the connection. A rejection of
   * either is caught and logged, and a rejected channel close skips the
   * connection close. Neither variable is cleared.
   */
  function CloseAll(s: Link, channelCloseFails: bool, connectionCloseFails: bool): (r: Link)
    ensures s.channel.Some? && channelCloseFails ==> r == s
    ensures r.connection.Some? <==> s.connection.Some?
    ensures r.channel.Some? <==> s.channel.Some?
    ensures r.channel.Some? && !channelCloseFails ==> !r.channel.value.open
    ensures r.connection.Some? && !connectionCloseFails && !(s.channel.Some? && channelCloseFails) ==>
      !r.connection.value.open
  {
    if s.channel.Some? && channelCloseFails then s
    else
      var s1 := if s.channel.Some? then s.(channel := Some(s.channel.value.(open := false))) else s;
      if s1.connection.Some? && !connectionCloseFails then ConnectionClosed(s1, s1.connection.value.id)
      else s1
  }

  /** What can happen to a link between two service calls. */
  datatype Event =
    | TimerFires(failsAt: Option<Step>)   // a pending reconnect timer runs `connectRabbitMQ`
    | Lost(id: nat)                        // connection `id` closes

  /** One event; a timer fires only if one is pending. */
  function Next(s: Link, e: Event, queue: string, prefetch: Option<nat>): Link {
    match e
    case TimerFires(failsAt) =>
      if s.pendingRetries == 0 then s
      else Connect(s.(pendingRetries := s.pendingRetries - 1), failsAt, queue, prefetch)
    case Lost(id) => ConnectionClosed(s, id)
  }

  /** A sequence of events, in order. */
  function Run(s: Link, events: seq<Event>, queue: string, prefetch: Option<nat>): Link
    decreases |events|
  {
    if events == [] then s
    else Run(Next(s, events[0], queue, prefetch), events[1..], queue, prefetch)
  }

  /** Every timer in `events` that fires meets a failing attempt. */
  predicate AllAttemptsFail(events: seq<Event>, prefetch: Option<nat>) {
    forall i :: 0 <= i < |events| && events[i].TimerFires? ==> Fails(events[i].failsAt, prefetch)
  }

  /**
   * There is no retry limit: while attempts keep failing, every fired timer
   * is replaced by a new one, so the number of pending reconnects never
   * drops, however many attempts and closes happen.
   */
  lemma {:induction false} RetriesNeverStop(s: Link, events: seq<Event>, queue: string, prefetch: Option<nat>)
    requires AllAttemptsFail(events, prefetch)
    ensures Run(s, events, queue, prefetch).pendingRetries >= s.pendingRetries
    decreases |events|
  {
    if events != [] {
      var s1 := Next(s, events[0], queue, prefetch);
      assert s1.pendingRetries >= s.pendingRetries;
      assert AllAttemptsFail(events[1..], prefetch) by {
        forall i | 0 <= i < |events[1..]| && events[1..][i].TimerFires?
          ensures Fails(events[1..][i].failsAt, prefetch)
        {
          assert events[1..][i] == events[i + 1];
        }
      }
      RetriesNeverStop(s1, events[1..], queue, prefetch);
    }
  }

  /**
   * A close of a connection that was set up completely always leads to a
   * reconnect attempt: after the close a timer is pending, and when it fires
   * with a succeeding attempt the link is ready again on a new connection.
   */
  lemma CloseLeadsToReconnect(s: Link, queue: string, prefetch: Option<nat>)
    requires s.connection.Some? && s.connection.value.id in s.watched
    ensures var closed := Next(s, Lost(s.connection.value.id), queue, prefetch);
      && closed.pendingRetries == s.pendingRetries + 1
      && !closed.connection.value.open
      && var again := Next(closed, TimerFires(None), queue, prefetch);
      && again.connection == Some(Connection(s.nextId, true))
      && again.channel == Some(Channel(s.nextId, Some(QueueDecl(queue, true)), prefetch, true))
      && again.pendingRetries == s.pendingRetries
  {
  }
}
