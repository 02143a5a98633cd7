/**
 * RabbitMqConsumerService: a durable queue per definition type, bound to the
 * definition's direct exchange under its routing key; each delivery is decoded,
 * dispatched and then acknowledged explicitly.
 */
module RabbitMqConsumer {
  import opened Wrappers
  import opened Reflection
  import opened Definitions
  import opened Startup
  import opened Messaging

  /** ExchangeType.Direct */
  const Direct := "direct"

  /** The calls made on an IModel. */
  datatype AmqpCall =
    | QueueDeclare(queue: string, durable: bool, exclusive: bool, autoDelete: bool)
    | ExchangeDeclare(exchange: string, kind: string, durable: bool, autoDelete: bool)
    | QueueBind(queue: string, exchange: string, routingKey: string)
    | BasicConsume(queue: string, autoAck: bool)
    | BasicAck(deliveryTag: nat, multiple: bool)
    | BasicPublish(exchange: string, routingKey: string, body: seq<byte>)

  /** The exchange declaration both the consumer and the publisher make: direct, durable, not auto-deleted. */
  function DeclareExchange(exchange: string): AmqpCall {
    ExchangeDeclare(exchange, Direct, true, false)
  }

  /** An IModel, as the sequence of calls made on it. */
  class Channel {
    var calls: seq<AmqpCall>

    constructor ()
      ensures calls == []
    {
      calls := [];
    }
  }

  /** `{FullName}-{entry assembly name}` */
  function ConsumerQueueName(t: TypeDesc, assemblyName: string): (r: string)
    ensures r == QueueNameOf(t.fullName, assemblyName)
  {
    t.fullName + "-" + assemblyName
  }

  /** What the constructor declares and binds for a queue, an exchange and a routing key, in order. */
  function Topology(queue: string, exchange: string, routingKey: string): (r: seq<AmqpCall>)
    ensures |r| == 3
    ensures r[0] == QueueDeclare(queue, true, false, false) && r[1].ExchangeDeclare? && r[1].kind == Direct && r[1].durable
    ensures r[2].QueueBind? && r[2].queue == r[0].queue && r[2].exchange == r[1].exchange == exchange && r[2].routingKey == routingKey
  {
    [QueueDeclare(queue, true, false, false), DeclareExchange(exchange), QueueBind(queue, exchange, routingKey)]
  }

  /** BasicDeliverEventArgs: the delivery tag and the body. */
  datatype Delivery = Delivery(deliveryTag: nat, body: seq<byte>)

  /** Encoding.UTF8.GetString, left uninterpreted. */
  type Utf8Decoder = seq<byte> -> string

  /** What the Received handler does with one delivery: the handler invocation, and the ack it sends. */
  datatype Handled = Handled(invocation: Option<Invocation<Delivery>>, ack: Option<AmqpCall>)

  /**
   * The Received handler: decode the UTF-8 body into the payload type; invoke the
   * handler for a non-null value; then ack the delivery alone (multiple = false).
   * An exception from the decoder or from the handler leaves the delivery unacked.
   */
  function Receive(d: Delivery, twoParam: bool, target: TypeDesc, utf8: Utf8Decoder, decode: Decoder, handlerThrows: bool): (r: Handled)
    ensures r.ack.Some? ==> r.ack.value == BasicAck(d.deliveryTag, false)
    ensures r.invocation.Some? <==> decode(utf8(d.body), target).Value?
    ensures r.invocation.Some? ==> r.invocation.value.payload == decode(utf8(d.body), target).obj
    ensures r.invocation.Some? ==> (r.invocation.value.Invoke2? <==> twoParam)
    ensures r.invocation.Some? && twoParam ==> r.invocation.value.envelope == d
    ensures r.ack.Some? <==> !decode(utf8(d.body), target).Fail? && !(r.invocation.Some? && handlerThrows)
  {
    var obj := decode(utf8(d.body), target);
    if obj.Fail? then Handled(None, None)
    else
      var made := Dispatch(twoParam, d, obj);
      Handled(made, if made.Some? && handlerThrows then None else Some(BasicAck(d.deliveryTag, false)))
  }

  /** A delivery whose body decodes to null is still acknowledged, without invoking the handler. */
  lemma NullPayloadIsAcked(d: Delivery, twoParam: bool, target: TypeDesc, utf8: Utf8Decoder, decode: Decoder, handlerThrows: bool)
    requires decode(utf8(d.body), target).Null?
    ensures Receive(d, twoParam, target, utf8, decode, handlerThrows) == Handled(None, Some(BasicAck(d.deliveryTag, false)))
  {
  }

  /**
   * A body of another shape reaches the handler as whatever object the decoder
   * makes of it; nothing compares its properties with the payload type's.
   */
  lemma AnyDecodedShapeReachesHandler(d: Delivery, target: TypeDesc, utf8: Utf8Decoder, decode: Decoder, o: Obj)
    requires decode(utf8(d.body), target) == Value(o)
    ensures Receive(d, false, target, utf8, decode, false) == Handled(Some(Invoke1(o)), Some(BasicAck(d.deliveryTag, false)))
    ensures Receive(d, true, target, utf8, decode, false) == Handled(Some(Invoke2(d, o)), Some(BasicAck(d.deliveryTag, false)))
  {
  }

  class RabbitMqConsumerService {
    const channel: Channel
    /** `_queueName` */
    const queueName: string
    const callback: Callback
    /** `_twoParam` */
    const twoParam: bool
    /** the handler's payload parameter type, which bodies are decoded into */
    const payloadType: TypeDesc

    ghost predicate Valid() {
      callback.Bound() && twoParam == callback.TwoParam() && payloadType == callback.DecodeTarget()
    }

    constructor (channel: Channel, queueName: string, callback: Callback)
      requires callback.Bound()
      ensures Valid() && this.channel == channel && this.queueName == queueName && this.callback == callback
    {
      this.channel := channel;
      this.queueName := queueName;
      this.callback := callback;
      twoParam := |callback.handler.parameters| > 1;
      payloadType := callback.handler.parameters[if |callback.handler.parameters| > 1 then 1 else 0];
    }

    /** ReadMessages: attach the Received handler and start consuming with autoAck off. */
    method ReadMessages()
      modifies channel
      ensures channel.calls == old(channel.calls) + [BasicConsume(queueName, false)]
    {
      channel.calls := channel.calls + [BasicConsume(queueName, false)];
    }

    /** The Received handler for one delivery; the ack, when sent, goes to the consumer's channel. */
    method OnReceived(d: Delivery, utf8: Utf8Decoder, decode: Decoder, handlerThrows: bool)
      returns (invocation: Option<Invocation<Delivery>>)
      modifies channel
      ensures var h := Receive(d, twoParam, payloadType, utf8, decode, handlerThrows);
        invocation == h.invocation && channel.calls == old(channel.calls) + OptionToSeq(h.ack)
    {
      var text := utf8(d.body);
      var obj := decode(text, payloadType);
      if obj.Fail? {
        return None;
      }
      invocation := None;
      if obj.Value? {
        if !twoParam {
          invocation := Some(Invoke1(obj.obj));
        } else {
          invocation := Some(Invoke2(d, obj.obj));
        }
        if handlerThrows {
          return;
        }
      }
      channel.calls := channel.calls + [BasicAck(d.deliveryTag, false)];
    }
  }

  /**
   * `new RabbitMqConsumerService(...)` on a fresh channel: declare the queue and
   * the exchange, read RoutingKey and bind under it. A key that cannot be derived
   * makes the constructor throw after both declarations.
   */
  method NewRabbitMqConsumerService(channel: Channel, definition: MicroServiceDefinition, callback: Callback, assemblyName: string)
    returns (r: Result<RabbitMqConsumerService, Error>)
    requires definition.Valid() && callback.Bound()
    modifies channel, definition`routingKey
    ensures definition.Valid()
    ensures definition.routingKey == KeyAfterRead(definition.typ, definition.pool)
    ensures var key := DeriveRoutingKey(definition.typ, definition.pool);
      var topology := Topology(ConsumerQueueName(definition.typ, assemblyName), definition.ExchangeName(), if key.Success? then key.value else "");
      if key.Success? then
        r.Success? && channel.calls == old(channel.calls) + topology
      else
        r == Failure(key.error) && channel.calls == old(channel.calls) + topology[..2]
    ensures r.Success? ==>
              fresh(r.value) && r.value.Valid() && r.value.channel == channel && r.value.callback == callback &&
              r.value.queueName == ConsumerQueueName(definition.typ, assemblyName)
  {
    var queueName := definition.typ.fullName + "-" + assemblyName;
    channel.calls := channel.calls + [QueueDeclare(queueName, true, false, false)];
    channel.calls := channel.calls + [ExchangeDeclare(definition.ExchangeName(), Direct, true, false)];
    var key, _ := definition.RoutingKey();
    if key.Failure? {
      return Failure(key.error);
    }
    channel.calls := channel.calls + [QueueBind(queueName, definition.ExchangeName(), key.value)];
    var service := new RabbitMqConsumerService(channel, queueName, callback);
    r := Success(service);
  }

  /** The consumer's queue is the definition's QueueName. */
  lemma QueueIsDefinitionQueueName(d: MicroServiceDefinition, assemblyName: string)
    requires d.assemblyName == assemblyName
    ensures ConsumerQueueName(d.typ, assemblyName) == d.QueueName()
  {
  }
}
