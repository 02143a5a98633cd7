/**
 * RabbitMqPublisherService: publishes the JSON text of a message to an exchange
 * under a routing key, declaring each exchange the first time it is used.
 */
module RabbitMqPublisher {
  import opened Wrappers
  import opened Reflection
  import opened Definitions
  import opened Messaging
  import opened RabbitMqConsumer

  /** Encoding.UTF8.GetBytes, left uninterpreted. */
  type Utf8Encoder = string -> seq<byte>

  /** The exchange names declared by a sequence of channel calls, in order. */
  function DeclaredExchanges(calls: seq<AmqpCall>): seq<string> {
    if calls == [] then []
    else DeclaredExchanges(calls[..|calls| - 1]) +
         if calls[|calls| - 1].ExchangeDeclare? then [calls[|calls| - 1].exchange] else []
  }

  /** The exchanges declared by two runs of calls are those of the first, then those of the second. */
  lemma {:induction false} DeclaredExchangesAppend(calls: seq<AmqpCall>, more: seq<AmqpCall>)
    ensures DeclaredExchanges(calls + more) == DeclaredExchanges(calls) + DeclaredExchanges(more)
    decreases |more|
  {
    if more == [] {
      assert calls + more == calls;
    } else {
      var init := more[..|more| - 1];
      DeclaredExchangesAppend(calls, init);
      assert (calls + more)[..|calls + more| - 1] == calls + init;
    }
  }

  predicate NoDuplicates(s: seq<string>) {
    forall i, j :: 0 <= i < j < |s| ==> s[i] != s[j]
  }

  class RabbitMqPublisherService {
    const channel: Channel
    /** `_exchanges`: the names already declared on the channel */
    var exchanges: seq<string>

    /** `_exchanges` holds exactly the exchanges declared on the channel, each once. */
    ghost predicate Valid()
      reads this, channel
    {
      exchanges == DeclaredExchanges(channel.calls) && NoDuplicates(exchanges)
    }

    constructor ()
      ensures Valid() && fresh(channel) && channel.calls == [] && exchanges == []
    {
      channel := new Channel();
      exchanges := [];
    }

    /**
     * Declare the exchange unless an equal name is already recorded, then publish
     * one body, the UTF-8 of the message's JSON text, under the routing key.
     */
    method PublishAsync<M>(message: M, serialize: M -> string, utf8: Utf8Encoder, exchangeName: string, routingKey: string)
      requires Valid()
      modifies this, channel
      ensures Valid()
      ensures exchangeName in exchanges
      ensures var known := exchangeName in old(exchanges);
        exchanges == old(exchanges) + (if known then [] else [exchangeName]) &&
        channel.calls == old(channel.calls) + (if known then [] else [DeclareExchange(exchangeName)]) +
                         [BasicPublish(exchangeName, routingKey, utf8(serialize(message)))]
    {
      if exchangeName !in exchanges {
        DeclaredExchangesAppend(channel.calls, [DeclareExchange(exchangeName)]);
        channel.calls := channel.calls + [ExchangeDeclare(exchangeName, Direct, true, false)];
        exchanges := exchanges + [exchangeName];
      }
      var body := utf8(serialize(message));
      DeclaredExchangesAppend(channel.calls, [BasicPublish(exchangeName, routingKey, body)]);
      channel.calls := channel.calls + [BasicPublish(exchangeName, routingKey, body)];
    }

    /** The definition overload: publish under ExchangeName and RoutingKey; a key that cannot be derived throws before any call. */
    method PublishDefinitionAsync<M>(message: M, serialize: M -> string, utf8: Utf8Encoder, definition: MicroServiceDefinition)
      returns (r: Result<(), Error>)
      requires Valid() && definition.Valid()
      modifies this, channel, definition`routingKey
      ensures Valid() && definition.Valid()
      ensures definition.routingKey == KeyAfterRead(definition.typ, definition.pool)
      ensures var key := DeriveRoutingKey(definition.typ, definition.pool);
        var e := definition.ExchangeName();
        var known := e in old(exchanges);
        if key.Success? then
          r.Success? &&
          exchanges == old(exchanges) + (if known then [] else [e]) &&
          channel.calls == old(channel.calls) + (if known then [] else [DeclareExchange(e)]) +
                           [BasicPublish(e, key.value, utf8(serialize(message)))]
        else
          r == Failure(key.error) && exchanges == old(exchanges) && channel.calls == old(channel.calls)
    {
      var key, _ := definition.RoutingKey();
      if key.Failure? {
        return Failure(key.error);
      }
      PublishAsync(message, serialize, utf8, definition.ExchangeName(), key.value);
      r := Success(());
    }
  }

  /** A direct exchange delivers a publish to a binding with the same exchange and the same routing key. */
  predicate DirectRoutes(publish: AmqpCall, bind: AmqpCall) {
    publish.BasicPublish? && bind.QueueBind? && publish.exchange == bind.exchange && publish.routingKey == bind.routingKey
  }

  /**
   * A message published through the definition overload reaches the queue a
   * consumer bound for the same definition type exactly when both sides use the
   * same pool; the entry assemblies of the two sides play no part.
   */
  lemma PublishReachesConsumerIffSamePool(t: TypeDesc, publisherPool: int, consumerPool: int, consumerAssembly: string, body: seq<byte>)
    requires t.ns != ""
    ensures var publish := BasicPublish(t.exchangeName, DeriveRoutingKey(t, publisherPool).value, body);
      var bind := Topology(ConsumerQueueName(t, consumerAssembly), t.exchangeName, DeriveRoutingKey(t, consumerPool).value)[2];
      DirectRoutes(publish, bind) <==> publisherPool == consumerPool
  {
    if DeriveRoutingKey(t, publisherPool) == DeriveRoutingKey(t, consumerPool) {
      RoutingKeyPoolInjective(t, publisherPool, consumerPool);
    }
  }

  /** Two publishes to an exchange not yet declared declare it once, before the first body. */
  method PublishTwice<M>(p: RabbitMqPublisherService, a: M, b: M, serialize: M -> string, utf8: Utf8Encoder, exchangeName: string, routingKey: string)
    requires p.Valid() && exchangeName !in p.exchanges
    modifies p, p.channel
    ensures p.Valid()
    ensures p.channel.calls == old(p.channel.calls) +
              [DeclareExchange(exchangeName),
               BasicPublish(exchangeName, routingKey, utf8(serialize(a))),
               BasicPublish(exchangeName, routingKey, utf8(serialize(b)))]
  {
    p.PublishAsync(a, serialize, utf8, exchangeName, routingKey);
    p.PublishAsync(b, serialize, utf8, exchangeName, routingKey);
  }
}
