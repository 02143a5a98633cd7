/**
 * KafkaPublisherService: produces the JSON text of a message to the topic
 * `{exchange}-{routing key}-{entry assembly}`; the definition overload uses the
 * definition type's full name as the routing key.
 */
module KafkaPublisher {
  import opened Wrappers
  import opened Reflection
  import opened Definitions

  /** A produced Message<Null, string>, with the topic it went to. */
  datatype Produced = Produced(topic: string, value: string)

  class KafkaPublisherService {
    /** the entry assembly's name, fixed for the process */
    const assemblyName: string
    /** the messages produced, in order */
    var produced: seq<Produced>

    constructor (assemblyName: string)
      ensures this.assemblyName == assemblyName && produced == []
    {
      this.assemblyName := assemblyName;
      produced := [];
    }

    /** Produce exactly one message, the JSON text, to the topic the exchange and routing key name. */
    method PublishAsync<M>(message: M, serialize: M -> string, exchangeName: string, routingKey: string)
      modifies this`produced
      ensures produced == old(produced) + [Produced(BrokerAddress(exchangeName, routingKey, assemblyName), serialize(message))]
    {
      var queueName := exchangeName + "-" + routingKey + "-" + assemblyName;
      produced := produced + [Produced(queueName, serialize(message))];
    }

    /** The definition overload: the routing key is the type's full name, so neither the pool nor RoutingKey is read. */
    method PublishDefinitionAsync<M>(message: M, serialize: M -> string, definition: MicroServiceDefinition)
      modifies this`produced
      ensures produced == old(produced) +
                [Produced(DefinitionAddress(definition.typ, assemblyName), serialize(message))]
    {
      PublishAsync(message, serialize, definition.ExchangeName(), definition.typ.fullName);
    }
  }
}
