/**
 * ActiveMqPublisherService: sends the JSON text of a message as a text message to
 * the queue `{exchange}-{routing key}-{entry assembly}` over an auto-acknowledging
 * session; the definition overload uses the type's full name as the routing key.
 */
module ActiveMqPublisher {
  import opened Wrappers
  import opened Reflection
  import opened Definitions
  import opened ActiveMqConsumer

  class ActiveMqPublisherService {
    const assemblyName: string
    /** the calls made on the connection, the session and the producer, in order */
    var calls: seq<NmsCall>

    /** Start the connection, open an auto-acknowledging session and a producer. */
    constructor (assemblyName: string)
      ensures this.assemblyName == assemblyName
      ensures calls == [ConnectionStart, CreateSession(AutoAcknowledge), CreateProducer]
      ensures IsStarted(calls)
    {
      this.assemblyName := assemblyName;
      calls := [ConnectionStart, CreateSession(AutoAcknowledge), CreateProducer];
    }

    /** Send exactly one text message, the JSON text, to the queue the exchange and routing key name. */
    method PublishAsync<M>(message: M, serialize: M -> string, exchangeName: string, routingKey: string)
      modifies this`calls
      ensures calls == old(calls) + [Send(BrokerAddress(exchangeName, routingKey, assemblyName), serialize(message))]
    {
      var queueName := exchangeName + "-" + routingKey + "-" + assemblyName;
      var text := serialize(message);
      calls := calls + [Send(queueName, text)];
    }

    /** The definition overload: the routing key is the type's full name. */
    method PublishDefinitionAsync<M>(message: M, serialize: M -> string, definition: MicroServiceDefinition)
      modifies this`calls
      ensures calls == old(calls) + [Send(DefinitionAddress(definition.typ, assemblyName), serialize(message))]
    {
      PublishAsync(message, serialize, definition.ExchangeName(), definition.typ.fullName);
    }

    /** Close the producer, then the session; stop and close the connection only if it is started. */
    method Dispose()
      modifies this`calls
      ensures calls == old(calls) + CloseSequence(ProducerClose, IsStarted(old(calls)))
    {
      var connectionStarted := IsStarted(calls);
      calls := calls + [ProducerClose];
      calls := calls + [SessionClose];
      if connectionStarted {
        calls := calls + [ConnectionStop];
        calls := calls + [ConnectionClose];
      }
    }
  }

  /** Disposing closes the connection only after the session, and only when it was started. */
  lemma DisposeClosesInOrder(first: NmsCall, connectionStarted: bool)
    requires first.ConsumerClose? || first.ProducerClose?
    ensures var s := CloseSequence(first, connectionStarted);
      s[0] == first && s[1] == SessionClose &&
      (ConnectionStop in s <==> connectionStarted) && (ConnectionClose in s <==> connectionStarted) &&
      (connectionStarted ==> s[|s| - 1] == ConnectionClose)
  {
  }
}
