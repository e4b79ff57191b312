/**
 * The broker connection and topology manager (src/rabbit.ts, with the
 * message-source types of src/interfaces.ts).
 *
 * The broker itself is not modelled: every declaration, binding, publish
 * and consumer registration the connection makes is appended to a log of
 * broker calls, and the broker is assumed to answer a declaration with the
 * name it was asked for.
 */
module Rabbit {
  import opened Common

  type Bytes = seq<bv8>

  // ---------------------------------------------------------------------
  // Message sources and exchange types (src/interfaces.ts)
  // ---------------------------------------------------------------------

  datatype ExchangeType = Direct | Fanout | Topic | Headers
  {
    /** The name of the type as it appears in exchange names and broker calls. */
    function Name(): string
    {
      match this
      case Direct => "direct"
      case Fanout => "fanout"
      case Topic => "topic"
      case Headers => "headers"
    }
  }

  /** The `x-match` mode of a headers binding. */
  datatype HeaderMatch = Any | All | AnyWithX | AllWithX
  {
    function Name(): string
    {
      match this
      case Any => "any"
      case All => "all"
      case AnyWithX => "any-with-x"
      case AllWithX => "all-with-x"
    }
  }

  /** A `type` string that names none of the four exchange types. */
  type UnknownTypeName = s: string | s !in {"direct", "fanout", "topic", "headers"} witness "unknown"

  /**
   * Where a queue takes its messages from. `Untyped` stands for a value
   * outside the declared union, which only an untyped caller can produce.
   */
  datatype MessageSource =
    | DirectSource(topic: string, routing: string)
    | FanoutSource(topic: string)
    | TopicSource(topic: string, routing: string)
    | HeadersSource(topic: string, matching: HeaderMatch, headers: map<string, string>)
    | Untyped(topic: string, typeName: UnknownTypeName)
  {
    function TypeName(): string
    {
      match this
      case DirectSource(_, _) => Direct.Name()
      case FanoutSource(_) => Fanout.Name()
      case TopicSource(_, _) => Topic.Name()
      case HeadersSource(_, _, _) => Headers.Name()
      case Untyped(_, t) => t
    }
  }

  // ---------------------------------------------------------------------
  // Naming
  // ---------------------------------------------------------------------

  /** JavaScript truthiness of an optional prefix: absent and empty both count as no prefix. */
  predicate Truthy(prefix: Option<string>)
  {
    prefix.Some? && prefix.value != ""
  }

  /** `$queue`: the queue name, namespaced by the prefix when there is one. */
  function QueueName(name: string, prefix: Option<string>): string
  {
    if Truthy(prefix) then prefix.value + "." + name else name
  }

  /** `$exchange`: the topic and the type, namespaced by the prefix when there is one. */
  function ExchangeName(topic: string, typeName: string, prefix: Option<string>): string
  {
    if Truthy(prefix) then prefix.value + "." + topic + "." + typeName else topic + "." + typeName
  }

  /**
   * A queue name ends with the name it was asked for and, under a
   * non-empty prefix, starts with the prefix and a `.`; nothing else is added.
   */
  lemma QueueNameShape(name: string, prefix: Option<string>)
    ensures var r := QueueName(name, prefix);
            && |r| == |name| + (if Truthy(prefix) then |prefix.value| + 1 else 0)
            && r[|r| - |name|..] == name
            && (Truthy(prefix) ==> r[..|prefix.value| + 1] == prefix.value + ".")
  {
  }

  /** An exchange name is the topic's name, namespaced as a queue name would be, then `.` and the type. */
  lemma ExchangeNameShape(topic: string, typeName: string, prefix: Option<string>)
    ensures ExchangeName(topic, typeName, prefix) == QueueName(topic, prefix) + "." + typeName
  {
  }

  /** Under one prefix, distinct names give distinct queues. */
  lemma QueueNameInjective(a: string, b: string, prefix: Option<string>)
    requires QueueName(a, prefix) == QueueName(b, prefix)
    ensures a == b
  {
    QueueNameShape(a, prefix);
    QueueNameShape(b, prefix);
  }

  /** The delay queue of a retryable queue is never the queue itself. */
  lemma DelayQueueIsDistinct(name: string, prefix: Option<string>)
    ensures QueueName(name + ".delay", prefix) != QueueName(name, prefix)
  {
    QueueNameShape(name, prefix);
    QueueNameShape(name + ".delay", prefix);
  }

  /** No exchange type name contains a `.`. */
  lemma TypeNameHasNoDot(t: ExchangeType, i: nat)
    requires i < |t.Name()|
    ensures t.Name()[i] != '.'
  {
  }

  /**
   * Under one prefix, the exchange name determines both the topic and the
   * exchange type: exchanges of different types never share a name.
   */
  lemma ExchangeNameInjective(topic1: string, t1: ExchangeType, topic2: string, t2: ExchangeType, prefix: Option<string>)
    requires ExchangeName(topic1, t1.Name(), prefix) == ExchangeName(topic2, t2.Name(), prefix)
    ensures t1 == t2 && topic1 == topic2
  {
    var r := ExchangeName(topic1, t1.Name(), prefix);
    var n1, n2 := t1.Name(), t2.Name();
    ExchangeNameShape(topic1, n1, prefix);
    ExchangeNameShape(topic2, n2, prefix);
    assert r[|r| - |n1|..] == n1 && r[|r| - |n1| - 1] == '.';
    assert r[|r| - |n2|..] == n2 && r[|r| - |n2| - 1] == '.';
    if |n1| < |n2| {
      var i := |n2| - |n1| - 1;
      assert r[|r| - |n2| + i] == n2[i];
      TypeNameHasNoDot(t2, i);
      assert false;
    } else if |n2| < |n1| {
      var i := |n1| - |n2| - 1;
      assert r[|r| - |n1| + i] == n1[i];
      TypeNameHasNoDot(t1, i);
      assert false;
    }
    assert n1 == n2;
    assert QueueName(topic1, prefix) == r[..|r| - |n1| - 1] == QueueName(topic2, prefix);
    QueueNameInjective(topic1, topic2, prefix);
  }

  // ---------------------------------------------------------------------
  // Bindings
  // ---------------------------------------------------------------------

  /** The arguments of one `bindQueue` broker call. */
  datatype Binding = Binding(queue: string, exchange: string, routingKey: string, args: map<string, string>)

  /** The error `bindQueue` throws for a source outside the union. */
  function UnknownSourceError(topic: string, typeName: string): string
  {
    "Unknown message source topic '" + topic + "' and type '" + typeName + "'"
  }

  /**
   * The binding `bindQueue` asks for, chosen by the source's variant:
   * direct and topic route by the source's routing key, fanout and headers
   * by the empty key, headers with `x-match` merged under the header table.
   */
  function BindingFor(queue: string, exchange: string, source: MessageSource): (r: Result<Binding, string>)
    ensures r.Ok? <==> !source.Untyped?
    ensures r.Ok? ==> r.value.queue == queue && r.value.exchange == exchange
    ensures (source.DirectSource? || source.TopicSource?) ==>
              r.value.routingKey == source.routing && r.value.args == map[]
    ensures source.FanoutSource? ==> r.value.routingKey == "" && r.value.args == map[]
    ensures source.HeadersSource? ==>
              && r.value.routingKey == ""
              && r.value.args.Keys == source.headers.Keys + {"x-match"}
              && (forall k :: k in source.headers ==> r.value.args[k] == source.headers[k])
              && ("x-match" !in source.headers ==> r.value.args["x-match"] == source.matching.Name())
    ensures source.Untyped? ==> r.error == UnknownSourceError(source.topic, source.typeName)
  {
    match source
    case DirectSource(_, routing) => Ok(Binding(queue, exchange, routing, map[]))
    case FanoutSource(_) => Ok(Binding(queue, exchange, "", map[]))
    case HeadersSource(_, matching, headers) =>
      Ok(Binding(queue, exchange, "", map["x-match" := matching.Name()] + headers))
    case TopicSource(_, routing) => Ok(Binding(queue, exchange, routing, map[]))
    case Untyped(topic, typeName) => Err(UnknownSourceError(topic, typeName))
  }

  // ---------------------------------------------------------------------
  // Delivery attempts
  // ---------------------------------------------------------------------

  /** One entry of the broker-maintained `x-death` header. */
  datatype XDeath = XDeath(queue: string, reason: string, count: int)

  predicate RejectedFrom(d: XDeath, queue: string)
  {
    d.reason == "rejected" && d.queue == queue
  }

  /** The index of the first `x-death` entry recording a rejection from `queue`. */
  function FirstRejected(deaths: seq<XDeath>, queue: string): (r: Option<nat>)
    ensures r.Some? ==> r.value < |deaths| && RejectedFrom(deaths[r.value], queue)
    ensures r.Some? ==> forall j :: 0 <= j < r.value ==> !RejectedFrom(deaths[j], queue)
    ensures r.None? ==> forall j :: 0 <= j < |deaths| ==> !RejectedFrom(deaths[j], queue)
  {
    if deaths == [] then None
    else if RejectedFrom(deaths[0], queue) then Some(0)
    else match FirstRejected(deaths[1..], queue)
      case None => None
      case Some(i) => Some(i + 1)
  }

  /**
   * `attempts`: one more than the count of the first rejection from the
   * consuming queue, 1 when there is none; at least 1 whenever the broker's
   * counts are not negative.
   */
  function Attempts(deaths: seq<XDeath>, queue: string): (r: int)
    ensures (forall j :: 0 <= j < |deaths| ==> deaths[j].count >= 0) ==> r >= 1
    ensures (forall j :: 0 <= j < |deaths| ==> !RejectedFrom(deaths[j], queue)) ==> r == 1
    ensures forall j ::
              (0 <= j < |deaths| && RejectedFrom(deaths[j], queue) &&
               (forall k :: 0 <= k < j ==> !RejectedFrom(deaths[k], queue)))
              ==> r == deaths[j].count + 1
  {
    match FirstRejected(deaths, queue)
    case None => 1
    case Some(i) => deaths[i].count + 1
  }

  /** Entries about other queues or other reasons never change the count. */
  lemma {:induction false} AttemptsIgnoresOtherEntries(deaths: seq<XDeath>, queue: string)
    ensures Attempts(deaths, queue) == Attempts(RejectionsFrom(deaths, queue), queue)
  {
    var f := FirstRejected(deaths, queue);
    var g := FirstRejected(RejectionsFrom(deaths, queue), queue);
    RejectionsFromAll(deaths, queue);
    if f.Some? {
      RejectionsFromHead(deaths, queue, f.value);
    }
  }

  /** The entries of `deaths` recording a rejection from `queue`, in order. */
  function RejectionsFrom(deaths: seq<XDeath>, queue: string): seq<XDeath>
  {
    if deaths == [] then []
    else (if RejectedFrom(deaths[0], queue) then [deaths[0]] else []) + RejectionsFrom(deaths[1..], queue)
  }

  lemma {:induction false} RejectionsFromAll(deaths: seq<XDeath>, queue: string)
    ensures forall j :: 0 <= j < |RejectionsFrom(deaths, queue)| ==> RejectedFrom(RejectionsFrom(deaths, queue)[j], queue)
    ensures (forall j :: 0 <= j < |deaths| ==> !RejectedFrom(deaths[j], queue)) ==> RejectionsFrom(deaths, queue) == []
  {
    if deaths != [] {
      RejectionsFromAll(deaths[1..], queue);
    }
  }

  lemma {:induction false} RejectionsFromHead(deaths: seq<XDeath>, queue: string, i: nat)
    requires i < |deaths| && RejectedFrom(deaths[i], queue)
    requires forall k :: 0 <= k < i ==> !RejectedFrom(deaths[k], queue)
    ensures RejectionsFrom(deaths, queue) != [] && RejectionsFrom(deaths, queue)[0] == deaths[i]
  {
    if i > 0 {
      RejectionsFromHead(deaths[1..], queue, i - 1);
    }
  }

  // ---------------------------------------------------------------------
  // The per-message consumer handler
  // ---------------------------------------------------------------------

  /** What the broker hands the consumer: the raw body and the `x-death` header, if any. */
  datatype Delivery = Delivery(content: Bytes, xDeath: Option<seq<XDeath>>)

  /** The message the application callback receives. */
  datatype RabbitMessage<C> = RabbitMessage(content: C, delivery: Delivery, attempts: int)

  /** What the handler did with one delivery. */
  datatype DeliveryAction<C> =
    | Ignored
    | Handled(message: RabbitMessage<C>)
    | Requeued(nacked: Delivery)

  function DeathsOf(d: Delivery): seq<XDeath>
  {
    if d.xDeath.Some? then d.xDeath.value else []
  }

  /**
   * The consumer's per-message handler: a nil delivery is ignored; the
   * body is deserialized, `attempts` attached and the callback invoked;
   * when deserializing or the callback throws, the delivery is nacked with
   * requeue. `callback` answers whether the application callback returned
   * without throwing.
   */
  function OnMessage<C>(queue: string, msg: Option<Delivery>, deserialize: Bytes -> Result<C, string>,
                        callback: RabbitMessage<C> -> bool): (r: DeliveryAction<C>)
    ensures r.Ignored? <==> msg.None?
    ensures r.Handled? ==>
              && msg.Some? && deserialize(msg.value.content).Ok?
              && r.message == RabbitMessage(deserialize(msg.value.content).value, msg.value,
                                            Attempts(DeathsOf(msg.value), queue))
              && callback(r.message)
    ensures r.Requeued? ==>
              && msg.Some? && r.nacked == msg.value
              && (deserialize(msg.value.content).Err? ||
                  !callback(RabbitMessage(deserialize(msg.value.content).value, msg.value,
                                          Attempts(DeathsOf(msg.value), queue))))
  {
    match msg
    case None => Ignored
    case Some(d) =>
      match deserialize(d.content)
      case Err(_) => Requeued(d)
      case Ok(content) =>
        var m := RabbitMessage(content, d, Attempts(DeathsOf(d), queue));
        if callback(m) then Handled(m) else Requeued(d)
  }

  // ---------------------------------------------------------------------
  // Connection status
  // ---------------------------------------------------------------------

  datatype Status = Connecting | Connected | Reconnecting

  /** The connection library's events. */
  datatype ConnectionEvent = Connect | Disconnect | ConnectFailed

  function NextStatus(s: Status, e: ConnectionEvent): Status
  {
    match e
    case Connect => Connected
    case Disconnect => Reconnecting
    case ConnectFailed => Reconnecting
  }

  /** The status after the events `es`, handled in order from `s`. */
  function StatusAfter(s: Status, es: seq<ConnectionEvent>): Status
    decreases |es|
  {
    if es == [] then s else StatusAfter(NextStatus(s, es[0]), es[1..])
  }

  /**
   * Only the last event decides the status: connected after a connect,
   * reconnecting after a disconnect or a failed connect, and `connecting`
   * only before the first event.
   */
  lemma {:induction false} LastEventDecidesStatus(s: Status, es: seq<ConnectionEvent>)
    ensures StatusAfter(s, es) ==
              if es == [] then s
              else if es[|es| - 1] == Connect then Connected
              else Reconnecting
    decreases |es|
  {
    if es != [] {
      LastEventDecidesStatus(NextStatus(s, es[0]), es[1..]);
    }
  }

  // ---------------------------------------------------------------------
  // The connection
  // ---------------------------------------------------------------------

  /** A channel; its setup sets the prefetch to the concurrency it was created for. */
  datatype Channel = Channel(prefetch: int)

  datatype QueueOptions = QueueOptions(
    durable: Option<bool>,
    autoDelete: Option<bool>,
    messageTtl: Option<int>,
    deadLetterExchange: Option<string>,
    deadLetterRoutingKey: Option<string>)

  datatype ExchangeOptions = ExchangeOptions(durable: Option<bool>, autoDelete: Option<bool>)

  datatype PublishOptions = PublishOptions(persistent: Option<bool>, messageId: Option<string>, timestamp: Option<int>)

  datatype PublishMessage<C> = PublishMessage(
    topic: string, kind: ExchangeType, content: C, routing: Option<string>, options: PublishOptions)

  /** One call the connection made on the broker. */
  datatype BrokerCall =
    | DeclareExchange(exchange: string, kind: ExchangeType, exchangeOptions: ExchangeOptions)
    | DeclareQueue(queue: string, queueOptions: QueueOptions)
    | Bind(binding: Binding)
    | BasicPublish(exchange: string, routingKey: string, body: Bytes, publishOptions: PublishOptions)
    | Consume(queue: string, channel: Channel)

  /** `assertChannel`'s default: an absent concurrency means 1. */
  function ConcurrencyKey(concurrency: Option<int>): int
  {
    if concurrency.Some? then concurrency.value else 1
  }

  /** The channel cache after asking for `key`: a channel is created only when none exists for it. */
  function WithChannel(channels: map<int, Channel>, key: int): (r: map<int, Channel>)
    ensures r.Keys == channels.Keys + {key}
    ensures forall k :: k in channels ==> r[k] == channels[k]
    ensures key !in channels ==> r[key] == Channel(key)
  {
    if key in channels then channels else channels[key := Channel(key)]
  }

  /** The options of the retry exchange and of delay queues. */
  const DurableExchange := ExchangeOptions(Some(true), Some(false))

  function DelayQueueOptions(delay: int, retry: string, primary: string): QueueOptions
  {
    QueueOptions(Some(true), Some(false), Some(delay), Some(retry), Some(primary))
  }

  /** The primary queue keeps the caller's options but dead-letters to the retry exchange. */
  function PrimaryQueueOptions(options: QueueOptions, retry: string, delayQueue: string): QueueOptions
  {
    options.(deadLetterExchange := Some(retry), deadLetterRoutingKey := Some(delayQueue))
  }

  /** The declaration `c` of `name`, unless `name` is among the names already declared. */
  function IfAbsent(c: BrokerCall, name: string, declared: set<string>): seq<BrokerCall>
  {
    if name in declared then [] else [c]
  }

  /**
   * The broker calls `assertRetryableQueue` makes for a primary queue not
   * yet asserted, given the names already asserted.
   */
  function RetryChain(primary: string, delayQueue: string, retry: string, delay: int, options: QueueOptions,
                      queues: set<string>, exchanges: set<string>): seq<BrokerCall>
  {
    RetryDeclarations(primary, delayQueue, retry, delay, options, queues, exchanges)
    + RetryBindings(primary, delayQueue, retry)
  }

  /** The retry exchange and the delay queue when not yet declared, then the primary queue. */
  function RetryDeclarations(primary: string, delayQueue: string, retry: string, delay: int, options: QueueOptions,
                             queues: set<string>, exchanges: set<string>): seq<BrokerCall>
  {
    IfAbsent(DeclareExchange(retry, Direct, DurableExchange), retry, exchanges)
    + IfAbsent(DeclareQueue(delayQueue, DelayQueueOptions(delay, retry, primary)), delayQueue, queues)
    + [DeclareQueue(primary, PrimaryQueueOptions(options, retry, delayQueue))]
  }

  /** Each of the two queues bound to the retry exchange under its own name. */
  function RetryBindings(primary: string, delayQueue: string, retry: string): seq<BrokerCall>
  {
    [Bind(Binding(primary, retry, primary, map[])), Bind(Binding(delayQueue, retry, delayQueue, map[]))]
  }

  /**
   * The queues a message dead-lettered from `q` reaches: through the
   * dead-letter exchange and routing key `q` was declared with, to every
   * queue bound to that exchange under that key.
   */
  ghost function DeadLetterTargets(calls: seq<BrokerCall>, q: string): set<string>
  {
    set d, b | d in calls && b in calls && d.DeclareQueue? && d.queue == q && b.Bind?
               && d.queueOptions.deadLetterExchange == Some(b.binding.exchange)
               && d.queueOptions.deadLetterRoutingKey == Some(b.binding.routingKey)
      :: b.binding.queue
  }

  /**
   * The retry chain is a cycle: a message rejected from the primary queue
   * is dead-lettered to the delay queue, which holds it for `delay`
   * milliseconds and dead-letters it back to the primary queue.
   */
  lemma RetryChainIsCycle(calls: seq<BrokerCall>, primary: string, delayQueue: string, retry: string, delay: int,
                          options: QueueOptions, queues: set<string>, exchanges: set<string>)
    requires delayQueue !in queues
    ensures var all := calls + RetryChain(primary, delayQueue, retry, delay, options, queues, exchanges);
            && delayQueue in DeadLetterTargets(all, primary)
            && primary in DeadLetterTargets(all, delayQueue)
            && DeclareQueue(delayQueue, DelayQueueOptions(delay, retry, primary)) in all
  {
    var all := calls + RetryChain(primary, delayQueue, retry, delay, options, queues, exchanges);
    var dPrimary := DeclareQueue(primary, PrimaryQueueOptions(options, retry, delayQueue));
    var dDelay := DeclareQueue(delayQueue, DelayQueueOptions(delay, retry, primary));
    var bPrimary := Bind(Binding(primary, retry, primary, map[]));
    var bDelay := Bind(Binding(delayQueue, retry, delayQueue, map[]));
    assert dPrimary in all && dDelay in all && bPrimary in all && bDelay in all;
  }

  /** Two broker calls that declare the same queue or the same exchange. */
  predicate Redeclares(a: BrokerCall, b: BrokerCall)
  {
    || (a.DeclareQueue? && b.DeclareQueue? && a.queue == b.queue)
    || (a.DeclareExchange? && b.DeclareExchange? && a.exchange == b.exchange)
  }

  function DeclaredQueues(calls: seq<BrokerCall>): set<string>
  {
    set c | c in calls && c.DeclareQueue? :: c.queue
  }

  function DeclaredExchanges(calls: seq<BrokerCall>): set<string>
  {
    set c | c in calls && c.DeclareExchange? :: c.exchange
  }

  /** Each queue and each exchange is declared to the broker at most once. */
  predicate DeclaredOnce(calls: seq<BrokerCall>)
  {
    forall i, j :: 0 <= i < j < |calls| ==> !Redeclares(calls[i], calls[j])
  }

  /** Appending a call that declares nothing already declared keeps every declaration unique. */
  lemma DeclaredOnceAppend(calls: seq<BrokerCall>, c: BrokerCall)
    requires DeclaredOnce(calls)
    requires c.DeclareQueue? ==> c.queue !in DeclaredQueues(calls)
    requires c.DeclareExchange? ==> c.exchange !in DeclaredExchanges(calls)
    ensures DeclaredOnce(calls + [c])
    ensures DeclaredQueues(calls + [c]) == DeclaredQueues(calls) + (if c.DeclareQueue? then {c.queue} else {})
    ensures DeclaredExchanges(calls + [c]) == DeclaredExchanges(calls) + (if c.DeclareExchange? then {c.exchange} else {})
  {
    var all := calls + [c];
    forall i, j | 0 <= i < j < |all|
      ensures !Redeclares(all[i], all[j])
    {
      if j == |calls| {
        assert all[i] == calls[i] && calls[i] in calls;
      } else {
        assert all[i] == calls[i] && all[j] == calls[j];
      }
    }
  }

  class RabbitConnection {
    const queuePrefix: Option<string>
    const exchangePrefix: Option<string>
    var status: Status
    /** The channel cache, keyed by concurrency. */
    var channels: map<int, Channel>
    var assertedQueues: set<string>
    var assertedExchanges: set<string>
    /** Every call made on the broker, oldest first. */
    var calls: seq<BrokerCall>

    /**
     * Every cached channel has the prefetch of its key, and the asserted
     * sets are exactly the names declared to the broker, each declared once.
     */
    ghost predicate Valid()
      reads this
    {
      && (forall k :: k in channels ==> channels[k].prefetch == k)
      && assertedQueues == DeclaredQueues(calls)
      && assertedExchanges == DeclaredExchanges(calls)
      && DeclaredOnce(calls)
    }

    constructor (queuePrefix: Option<string>, exchangePrefix: Option<string>)
      ensures Valid() && status == Connecting
      ensures this.queuePrefix == queuePrefix && this.exchangePrefix == exchangePrefix
      ensures channels == map[] && assertedQueues == {} && assertedExchanges == {} && calls == []
    {
      this.queuePrefix, this.exchangePrefix := queuePrefix, exchangePrefix;
      status := Connecting;
      channels, assertedQueues, assertedExchanges, calls := map[], {}, {}, [];
    }

    /** Send a call that declares nothing. */
    method Send(c: BrokerCall)
      requires Valid() && !c.DeclareQueue? && !c.DeclareExchange?
      modifies this`calls
      ensures Valid() && calls == old(calls) + [c]
    {
      DeclaredOnceAppend(calls, c);
      calls := calls + [c];
    }

    /** Send a declaration of a name not declared before, and remember the name. */
    method Declare(c: BrokerCall)
      requires Valid() && (c.DeclareQueue? || c.DeclareExchange?)
      requires c.DeclareQueue? ==> c.queue !in assertedQueues
      requires c.DeclareExchange? ==> c.exchange !in assertedExchanges
      modifies this`calls, this`assertedQueues, this`assertedExchanges
      ensures Valid() && calls == old(calls) + [c]
      ensures c.DeclareQueue? ==> assertedQueues == old(assertedQueues) + {c.queue} && assertedExchanges == old(assertedExchanges)
      ensures c.DeclareExchange? ==> assertedExchanges == old(assertedExchanges) + {c.exchange} && assertedQueues == old(assertedQueues)
    {
      DeclaredOnceAppend(calls, c);
      calls := calls + [c];
      if c.DeclareQueue? {
        assertedQueues := assertedQueues + {c.queue};
      } else {
        assertedExchanges := assertedExchanges + {c.exchange};
      }
    }

    /** The `connect` handler; `reconnected` is whether it logs a reconnection. */
    method OnConnect() returns (reconnected: bool)
      modifies this`status
      ensures status == Connected && reconnected == (old(status) == Reconnecting)
    {
      reconnected := status == Reconnecting;
      status := Connected;
    }

    /** The `disconnect` handler. */
    method OnDisconnect()
      modifies this`status
      ensures status == Reconnecting
    {
      status := Reconnecting;
    }

    /** The `connectFailed` handler. */
    method OnConnectFailed()
      modifies this`status
      ensures status == Reconnecting
    {
      status := Reconnecting;
    }

    /**
     * `assertChannel`: the cached channel for the concurrency (1 when
     * absent), created with that prefetch the first time it is asked for.
     */
    method AssertChannel(concurrency: Option<int>) returns (channel: Channel)
      requires Valid()
      modifies this`channels
      ensures Valid()
      ensures channels == WithChannel(old(channels), ConcurrencyKey(concurrency))
      ensures channel == channels[ConcurrencyKey(concurrency)] && channel.prefetch == ConcurrencyKey(concurrency)
    {
      var key := ConcurrencyKey(concurrency);
      if key in channels {
        channel := channels[key];
      } else {
        channel := Channel(key);
        channels := channels[key := channel];
      }
    }

    /** `publish`: resolve the exchange name and publish the serialized content. */
    method Publish<C>(message: PublishMessage<C>, serialize: C -> Bytes)
      requires Valid()
      modifies this`channels, this`calls
      ensures Valid()
      ensures channels == WithChannel(old(channels), 1)
      ensures calls == old(calls) + [BasicPublish(ExchangeName(message.topic, message.kind.Name(), exchangePrefix),
                                             if message.routing.Some? then message.routing.value else "",
                                             serialize(message.content), message.options)]
    {
      var routing := if message.routing.Some? then message.routing.value else "";
      var exchange := ExchangeName(message.topic, message.kind.Name(), exchangePrefix);
      var _ := AssertChannel(None);
      var body := serialize(message.content);
      Send(BasicPublish(exchange, routing, body, message.options));
    }

    /**
     * `subscribe`: register a consumer on the prefixed queue, on the
     * channel of the requested concurrency. Each delivery is then handled
     * by `OnMessage` with the returned queue name.
     */
    method Subscribe(source: string, concurrency: Option<int>) returns (queue: string)
      requires Valid()
      modifies this`channels, this`calls
      ensures Valid()
      ensures queue == QueueName(source, queuePrefix)
      ensures channels == WithChannel(old(channels), ConcurrencyKey(concurrency))
      ensures calls == old(calls) + [Consume(queue, Channel(ConcurrencyKey(concurrency)))]
    {
      var channel := AssertChannel(concurrency);
      queue := QueueName(source, queuePrefix);
      Send(Consume(queue, channel));
    }

    /**
     * `assertQueue`: idempotent; a queue already asserted is returned
     * without a broker call, otherwise it is declared once and remembered.
     */
    method AssertQueue(name: string, options: QueueOptions) returns (queue: string)
      requires Valid()
      modifies this`channels, this`calls, this`assertedQueues, this`assertedExchanges
      ensures Valid() && assertedExchanges == old(assertedExchanges)
      ensures queue == QueueName(name, queuePrefix)
      ensures assertedQueues == old(assertedQueues) + {queue}
      ensures calls == old(calls) + IfAbsent(DeclareQueue(queue, options), queue, old(assertedQueues))
      ensures channels == if queue in old(assertedQueues) then old(channels) else WithChannel(old(channels), 1)
    {
      queue := QueueName(name, queuePrefix);
      if queue in assertedQueues {
        return;
      }
      var _ := AssertChannel(None);
      Declare(DeclareQueue(queue, options));
    }

    /** `assertExchange`: idempotent, like `assertQueue`, for the exchange of a topic and type. */
    method AssertExchange(topic: string, kind: ExchangeType, options: ExchangeOptions) returns (exchange: string)
      requires Valid()
      modifies this`channels, this`calls, this`assertedQueues, this`assertedExchanges
      ensures Valid() && assertedQueues == old(assertedQueues)
      ensures exchange == ExchangeName(topic, kind.Name(), exchangePrefix)
      ensures assertedExchanges == old(assertedExchanges) + {exchange}
      ensures calls == old(calls) + IfAbsent(DeclareExchange(exchange, kind, options), exchange, old(assertedExchanges))
      ensures channels == if exchange in old(assertedExchanges) then old(channels) else WithChannel(old(channels), 1)
    {
      exchange := ExchangeName(topic, kind.Name(), exchangePrefix);
      if exchange in assertedExchanges {
        return;
      }
      var _ := AssertChannel(None);
      Declare(DeclareExchange(exchange, kind, options));
    }

    /** `bindQueue`: bind the prefixed queue to the source's exchange, or fail for an unknown source type. */
    method BindQueue(name: string, source: MessageSource) returns (r: Result<Binding, string>)
      requires Valid()
      modifies this`channels, this`calls
      ensures Valid()
      ensures channels == WithChannel(old(channels), 1)
      ensures r == BindingFor(QueueName(name, queuePrefix), ExchangeName(source.topic, source.TypeName(), exchangePrefix), source)
      ensures calls == if r.Ok? then old(calls) + [Bind(r.value)] else old(calls)
    {
      var queue := QueueName(name, queuePrefix);
      var exchange := ExchangeName(source.topic, source.TypeName(), exchangePrefix);
      var _ := AssertChannel(None);
      r := BindingFor(queue, exchange, source);
      if r.Ok? {
        Send(Bind(r.value));
      }
    }

    /**
     * `assertRetryableQueue`: nothing at all when the primary queue is
     * already asserted (however it was); otherwise the retry exchange, the
     * delay queue, the primary queue and their two bindings.
     */
    method AssertRetryableQueue(name: string, delay: int, options: QueueOptions) returns (queue: string)
      requires Valid()
      modifies this`channels, this`assertedQueues, this`assertedExchanges, this`calls
      ensures Valid()
      ensures queue == QueueName(name, queuePrefix)
      ensures queue in old(assertedQueues) ==>
                && channels == old(channels) && calls == old(calls)
                && assertedQueues == old(assertedQueues) && assertedExchanges == old(assertedExchanges)
      ensures queue !in old(assertedQueues) ==>
                var delayQueue := QueueName(name + ".delay", queuePrefix);
                var retry := ExchangeName("retry", Direct.Name(), exchangePrefix);
                && channels == WithChannel(old(channels), 1)
                && assertedQueues == old(assertedQueues) + {delayQueue, queue}
                && assertedExchanges == old(assertedExchanges) + {retry}
                && calls == old(calls) + RetryChain(queue, delayQueue, retry, delay, options,
                                                    old(assertedQueues), old(assertedExchanges))
    {
      queue := QueueName(name, queuePrefix);
      if queue in assertedQueues {
        return;
      }
      ghost var calls0, queues0, exchanges0 := calls, assertedQueues, assertedExchanges;
      var retry, delayQueue := DeclareRetryQueues(name, delay, options);
      BindRetryQueues(name, retry, delayQueue);
      AppendAssoc(calls0, RetryDeclarations(queue, delayQueue, retry, delay, options, queues0, exchanges0),
                  RetryBindings(queue, delayQueue, retry));
    }

    /** The declarations of `assertRetryableQueue`, for a primary queue not yet asserted. */
    method DeclareRetryQueues(name: string, delay: int, options: QueueOptions) returns (retry: string, delayQueue: string)
      requires Valid() && QueueName(name, queuePrefix) !in assertedQueues
      modifies this`channels, this`calls, this`assertedQueues, this`assertedExchanges
      ensures Valid()
      ensures retry == ExchangeName("retry", Direct.Name(), exchangePrefix)
      ensures delayQueue == QueueName(name + ".delay", queuePrefix)
      ensures channels == WithChannel(old(channels), 1)
      ensures assertedQueues == old(assertedQueues) + {delayQueue, QueueName(name, queuePrefix)}
      ensures assertedExchanges == old(assertedExchanges) + {retry}
      ensures calls == old(calls) + RetryDeclarations(QueueName(name, queuePrefix), delayQueue, retry, delay, options,
                                                      old(assertedQueues), old(assertedExchanges))
    {
      DelayQueueIsDistinct(name, queuePrefix);
      var queue := QueueName(name, queuePrefix);
      ghost var calls0, queues0, exchanges0 := calls, assertedQueues, assertedExchanges;
      retry := AssertExchange("retry", Direct, DurableExchange);
      ghost var a := IfAbsent(DeclareExchange(retry, Direct, DurableExchange), retry, exchanges0);
      assert calls == calls0 + a;
      ghost var calls1 := calls;
      delayQueue := AssertQueue(name + ".delay", DelayQueueOptions(delay, retry, queue));
      ghost var b := IfAbsent(DeclareQueue(delayQueue, DelayQueueOptions(delay, retry, queue)), delayQueue, queues0);
      assert calls == calls1 + b;
      ghost var calls2 := calls;
      var _ := AssertQueue(name, PrimaryQueueOptions(options, retry, delayQueue));
      ghost var p := [DeclareQueue(queue, PrimaryQueueOptions(options, retry, delayQueue))];
      assert calls == calls2 + p;
      AppendAssoc(calls0, a, b);
      AppendAssoc(calls0, a + b, p);
    }

    /** The two bindings of `assertRetryableQueue`, both on the retry exchange. */
    method BindRetryQueues(name: string, retry: string, delayQueue: string)
      requires Valid()
      requires retry == ExchangeName("retry", Direct.Name(), exchangePrefix)
      requires delayQueue == QueueName(name + ".delay", queuePrefix)
      modifies this`channels, this`calls
      ensures Valid()
      ensures channels == WithChannel(old(channels), 1)
      ensures calls == old(calls) + RetryBindings(QueueName(name, queuePrefix), delayQueue, retry)
    {
      var queue := QueueName(name, queuePrefix);
      var bound := BindQueue(name, DirectSource("retry", queue));
      assert bound == Ok(Binding(queue, retry, queue, map[]));
      bound := BindQueue(name + ".delay", DirectSource("retry", delayQueue));
      assert bound == Ok(Binding(delayQueue, retry, delayQueue, map[]));
    }
  }
}
