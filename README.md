# PubSubClient in Dafny

This project models the broker-independent core of PubSubClient, a .NET
publish/subscribe library. In that library a *definition* type names a message
stream. Handler methods marked with `[ConsumerMethod(typeof(SomeDefinition))]`
are discovered at start-up and bound to a consumer service for one of three
brokers (RabbitMQ, Kafka, ActiveMQ), and a publisher service sends messages to
the queue or topic the definition names.

What is modelled:

- **Routing identity** (`definition.dfy`, `text.dfy`):
  - the memoised `RoutingKey` getter, which removes every ordinal occurrence of
    the namespace, strips leading dots and appends `.{pool}` outside the
    Default pool;
  - the `Pool` setter, which drops the memoised key;
  - `QueueName` and `ToString`.
  - `MicroServiceDefinition` is a class. Its fields `pool` and `routingKey` are
    updated in place.
- **Handler registration** (`consumer_attribute.dfy`, `startup.dfy`):
  - the per-type constructor cache behind `ConsumerMethodAttribute`;
  - handler-shape validation in `CreateFuncFromMethodInfo`;
  - positional, assignability-based constructor matching;
  - assembly and attribute filtering;
  - the per-method registration loop, which skips failing handlers. Its
    outcome is specified by `Plan` and `LoggedIndices`;
  - the hosted-service factory, which the first method whose declaring type
    the service provider cannot build aborts.
- **Adapters** (`kafka_*.dfy`, `rabbitmq_*.dfy`, `activemq_*.dfy`, `messaging.dfy`):
  - the queue and topic name formulas;
  - the `_twoParam` arity flag and the decode target;
  - the "decode, then invoke only if non-null" dispatch step;
  - Kafka's listener loop over a sequence of poll outcomes;
  - RabbitMQ's ack after dispatch;
  - ActiveMQ's multicast listeners and `Dispose` ordering;
  - the RabbitMQ publisher's set of declared exchanges.

Broker calls are recorded as events in `calls` sequences. JSON decoding and
serialisation and UTF-8 are function-valued parameters:
`Decoder = (string, TypeDesc) -> Decoded`, where `Decoded` is
`Value(obj) | Null | Fail`. Reflection is replaced by descriptors:

- `TypeDesc`: full name, namespace, supertypes, default constructor, whether that constructor throws, ExchangeName;
- `MethodDesc`: name, declaring type, return type, parameters, attribute types;
- `CtorDesc`: parameter types.

Exceptions raised by the modelled code are `Result` failures carrying an `Error`.

The main results, each proved for all inputs:

- a publish through the RabbitMQ definition overload reaches a consumer's
  binding for the same definition type if and only if both sides use the same pool;
- publisher and consumer compute the same Kafka topic and the same ActiveMQ
  queue for the same definition when both run under the same entry assembly.
  Both names end with the publisher's or the consumer's own entry assembly
  name, so a publisher in one service never reaches a Kafka or ActiveMQ
  consumer hosted by another (`DefinitionAddressDependsOnAssembly`);
- the Kafka loop invokes the handler once for every non-null message up to the
  first poll that ends it, and for no later poll;
- the registration loop builds exactly one consumer per method whose binding
  succeeds, in method order, logs exactly the methods whose binding throws (a method with no matching
  constructor gets no consumer and no log entry), and keeps the
  consumers added before a failure;
- an unresolvable declaring type aborts the factory, after the methods before
  it have been bound and logged.

## Model

| member | source | states |
|---|---|---|
| Text.RemoveAll | PubSubClient/MicroServiceDefinitionBase.cs:53 | removing the namespace never makes the name longer |
| Text.RemoveAllDropsPrefix | PubSubClient/MicroServiceDefinitionBase.cs:53 | an occurrence at the front is removed, and the scan resumes right after it |
| Text.RemoveAllKeepsHead | PubSubClient/MicroServiceDefinitionBase.cs:53 | a character that does not start an occurrence is kept, and the scan resumes at the next character |
| Text.RemoveAllIdentityIff | PubSubClient/MicroServiceDefinitionBase.cs:53 | Replace leaves the name unchanged if and only if the namespace does not occur in it |
| Text.RemoveAllShrinks | PubSubClient/MicroServiceDefinitionBase.cs:53 | when the namespace occurs, the result is strictly shorter |
| Text.RemoveAllNoOccurrence | PubSubClient/MicroServiceDefinitionBase.cs:53 | when the namespace does not occur, the name is returned unchanged |
| Text.StripLeadingDots | PubSubClient/MicroServiceDefinitionBase.cs:55-58 | the result is a suffix of the input, everything removed is a '.', and the result does not start with '.' |
| Text.StripLeadingDotsKeeps | PubSubClient/MicroServiceDefinitionBase.cs:55-58 | a string that does not start with '.' is not changed |
| Text.DigitChar | PubSubClient/MicroServiceDefinitionBase.cs:60 | the character is the decimal digit of its value |
| Text.NatToDecimal | PubSubClient/MicroServiceDefinitionBase.cs:60 | `(int)Pool` renders as a non-empty digit string with no leading zero |
| Text.NatToDecimalRoundTrip | PubSubClient/MicroServiceDefinitionBase.cs:60 | reading a rendered number back gives the number |
| Text.IntToDecimalInjective | PubSubClient/MicroServiceDefinitionBase.cs:60 | distinct integers render as distinct strings |
| Text.IntToDecimal | PubSubClient/MicroServiceDefinitionBase.cs:60 | `(int)Pool` renders as a non-empty string that starts with '-' exactly for a negative value, with decimal digits everywhere else |
| Definitions.TrimLeadingDots | PubSubClient/MicroServiceDefinitionBase.cs:55-58 | the `while (StartsWith('.'))` loop computes StripLeadingDots of its input |
| Definitions.DeriveRoutingKey | PubSubClient/MicroServiceDefinitionBase.cs:53-60 | deriving fails exactly for a type in the global namespace, with the empty-old-value error; in the Default pool the key is no longer than the full name and does not start with '.' |
| Definitions.WithPoolSuffix | PubSubClient/MicroServiceDefinitionBase.cs:60 | the Default pool leaves the key unchanged; any other pool appends '.' and the rendered pool number after the whole key |
| Definitions.QueueNameOf | PubSubClient/MicroServiceDefinitionBase.cs:40 | the full name, one '-', then the assembly name, at their positions |
| Definitions.BrokerAddress | PubSubClient.Kafka/KafkaPublisherService.cs:48 | the Kafka topic and the ActiveMQ queue (ActiveMqPublisherService.cs:54) a publisher addresses: the exchange, '-', the routing key, '-', then the entry assembly's name, each at its position |
| Definitions.DefinitionAddress | PubSubClient.Kafka/KafkaConsumerService.cs:42 | the Kafka topic and the ActiveMQ queue (ActiveMqConsumerService.cs:26) a consumer listens on: ExchangeName, '-', then the definition's queue name `{FullName}-{assembly}`; it starts with the exchange and ends with the assembly name |
| Definitions.DefinitionOverloadReachesConsumer | PubSubClient.Kafka/KafkaPublisherService.cs:42-48 | a publish through the definition overload, with the full name as routing key, addresses the definition's Kafka and ActiveMQ consumers |
| Definitions.DefinitionAddressDependsOnAssembly | PubSubClient.Kafka/KafkaPublisherService.cs:48 | different entry assemblies give different topics and queues |
| Definitions.BackgroundKeyOf | PubSubClient/MicroServiceDefinitionBase.cs:60 | in the Background pool the key is the Default key followed by `.1` |
| Definitions.MicroServiceDefinition.constructor | PubSubClient/MicroServiceDefinitionBase.cs:11-13 | a new definition is in the Default pool and has no memoised key |
| Definitions.MicroServiceDefinition.QueueName | PubSubClient/MicroServiceDefinitionBase.cs:38-40 | the type's full name, then '-', then the entry assembly's name; the pool plays no part |
| Definitions.MicroServiceDefinition.SetPool | PubSubClient/MicroServiceDefinitionBase.cs:21-35 | the same pool leaves the pool and the memoised key untouched; a different pool is stored and the key is cleared |
| Definitions.MicroServiceDefinition.RoutingKey | PubSubClient/MicroServiceDefinitionBase.cs:43-65 | the result is the key derived from the type and the current pool; the derivation runs exactly when nothing is memoised; success memoises the key; a global-namespace type fails |
| Definitions.MicroServiceDefinition.ToString | PubSubClient/MicroServiceDefinitionBase.cs:68 | ExchangeName and RoutingKey joined by a space, a vertical bar and a space, or the key's failure; afterwards the memoised key is the derived key, or nothing when deriving throws |
| Definitions.RepeatedReadsAgree | PubSubClient/MicroServiceDefinitionBase.cs:47-51 | two reads with no pool change agree, and after a successful first read the second does not recompute |
| Definitions.PoolChangeTakesEffect | PubSubClient/MicroServiceDefinitionBase.cs:28-32 | after a pool change, the next read returns the key of the new pool even if the old key was memoised |
| Definitions.RoutingKeyPoolInjective | PubSubClient/MicroServiceDefinitionBase.cs:60 | two pools give the same routing key only if they are the same pool |
| Definitions.RoutingKeyPoolSuffix | PubSubClient/MicroServiceDefinitionBase.cs:60 | outside the Default pool, the key is the Default key followed by `.{pool}` |
| Definitions.RoutingKeyNoLeadingDot | PubSubClient/MicroServiceDefinitionBase.cs:55-58 | a key that can be derived never starts with '.' before the pool suffix |
| Definitions.RoutingKeyOfNamespacedType | PubSubClient/MicroServiceDefinitionBase.cs:53-60 | for `N.name` with N not occurring again and name not starting with '.', the Default key is `name`, any '+' included |
| Definitions.DashAfterTypeName | PubSubClient/MicroServiceDefinitionBase.cs:40 | in `{FullName}-{assembly}` the first '-' follows the type name |
| Definitions.QueueNameInjective | PubSubClient/MicroServiceDefinitionBase.cs:40 | the queue name determines both the type name and the assembly name |
| Definitions.TestDefinitionKey | PubSubClient.Tests/Definitions.cs:6 | the test suite's TestDefinition has routing key `TestDefinition` |
| Definitions.TestDefinitionBackgroundKey | PubSubClient/MicroServiceDefinitionBase.cs:60 | in the Background pool its key is `TestDefinition.1` |
| Definitions.RoutingKeyRemovesEveryOccurrence | PubSubClient/MicroServiceDefinitionBase.cs:53 | every occurrence of the namespace is removed, not only the prefix; `Foo.FooBar` derives `Bar` |
| Definitions.RoutingKeyOfTypeNamedLikeNamespace | PubSubClient/MicroServiceDefinitionBase.cs:53-60 | a type `A.A` derives the empty key, and `.1` in the Background pool |
| Definitions.GlobalNamespaceHasNoRoutingKey | PubSubClient/MicroServiceDefinitionBase.cs:53 | a type in the global namespace makes Replace throw, in every pool |
| ConsumerAttributes.DefinitionFactory.constructor | PubSubClient/Attributes/ConsumerMethodAttribute.cs:13 | the constructor cache starts empty |
| ConsumerAttributes.DefinitionFactory.CreateMicroServiceDefinition | PubSubClient/Attributes/ConsumerMethodAttribute.cs:35-55 | a non-definition type is rejected and the cache is not consulted; an uncached type without a default constructor is rejected and the cache is unchanged; otherwise the cache gains (never overwrites) that type's constructor, and running it either throws, failing with that error while the entry stays cached, or gives a fresh definition of exactly that type |
| ConsumerAttributes.ConsumerMethodAttribute.constructor | PubSubClient/Attributes/ConsumerMethodAttribute.cs:25-28 | the attribute holds the definition it was given |
| ConsumerAttributes.ConsumerMethodAttribute.ToString | PubSubClient/Attributes/ConsumerMethodAttribute.cs:58-62 | two lines, `ExchangeName: {x}` and `RoutingKey: {y}`, or the key's failure; afterwards the definition's memoised key is the derived key, or nothing when deriving throws |
| ConsumerAttributes.NewConsumerMethodAttribute | PubSubClient/Attributes/ConsumerMethodAttribute.cs:25-28 | the attribute is constructed if and only if its type implements IMicroServiceDefinition and has a public parameterless constructor that returns normally; its definition is fresh and of that type; a type that passes the first two checks has its constructor cached even when running it throws, and then fails with that error; a type rejected earlier leaves the cache unchanged; cached constructors are never removed or replaced |
| ConsumerAttributes.SameTypeDistinctDefinitions | PubSubClient/Attributes/ConsumerMethodAttribute.cs:44-54 | two attributes naming the same type get two distinct definition objects |
| ConsumerAttributes.RetryFailsAlike | PubSubClient/Attributes/ConsumerMethodAttribute.cs:42-45 | a rejected type is rejected again with the same error; the cache is unchanged if it was rejected before TryAdd, otherwise it holds the type's constructor |
| Reflection.ImplementsDefinition | PubSubClient/Attributes/ConsumerMethodAttribute.cs:37 | a type passes the IsAssignableFrom check exactly when it is IMicroServiceDefinition or has it among its supertypes |
| Startup.CreateFuncFromMethodInfo | PubSubClient/StartupExtensions.cs:74-97 | a non-Task return type is rejected before any parameter check; then a handler that takes neither one parameter nor two with the first exactly `object`; then a static handler, which CreateDelegate cannot bind to the instance; success exactly otherwise; the payload type is the last parameter; two parameters give a Func with the envelope |
| Startup.CallbackDecodeTarget | PubSubClient/StartupExtensions.cs:83-96 | for a bound callback, `_twoParam` holds iff it is the two-parameter Func, and the decode target `[_twoParam ? 1 : 0]` is its payload type |
| Startup.IsMatchingConstructor | PubSubClient/StartupExtensions.cs:99-110 | true iff the counts are equal and each parameter type is assignable from the argument at the same index |
| Startup.FirstMatch | PubSubClient/StartupExtensions.cs:55 | the chosen constructor matches, and no constructor before it, in the order reflection returns them, does; None only if none matches |
| Startup.FindConstructor | PubSubClient/StartupExtensions.cs:55 | the search loop returns the first matching constructor in the order reflection returns them |
| Startup.ConsumerMethodsOf | PubSubClient/StartupExtensions.cs:32-33 | a method is kept exactly when it carries the attribute |
| Startup.ConsumerMethodsOfCounts | PubSubClient/StartupExtensions.cs:32-33 | each attributed method is kept as many times as GetMethods lists it, and every other method is dropped |
| Startup.ConsumerMethodsOfAppend | PubSubClient/StartupExtensions.cs:32-33 | filtering keeps reflection's order: a concatenation's result is the first part's result followed by the second's |
| Startup.ConsumerMethodsOfTypes | PubSubClient/StartupExtensions.cs:31-33 | exactly the attributed methods of the given types |
| Startup.ConsumerMethodsOfTypesAppend | PubSubClient/StartupExtensions.cs:31-33 | the methods come type by type, in the order of the types |
| Startup.InheritedHandlerListedTwice | PubSubClient/StartupExtensions.cs:32 | without DeclaredOnly, a handler that a subtype inherits is found for the base type and again for the subtype, so two consumers are registered for it |
| Startup.ConsumerMethods | PubSubClient/StartupExtensions.cs:29-33 | exactly the attributed methods of assemblies with a name starting with neither "System" nor "Microsoft" |
| Startup.ConsumerMethodsAppend | PubSubClient/StartupExtensions.cs:29-33 | the methods come assembly by assembly, in load order |
| Startup.CallbackIsDelegate | PubSubClient/StartupExtensions.cs:86-96 | whichever Func type CreateDelegate builds, the delegate is assignable to System.Delegate and System.MulticastDelegate |
| Startup.AdapterConstructorMatches | PubSubClient/StartupExtensions.cs:54-55 | a constructor shaped `(ILogger<T>, IConfiguration, IMicroServiceDefinition, Delegate)` accepts the registration's four arguments for any bound handler and any definition type, once logger and configuration fit; assignability is checked per parameter as at StartupExtensions.cs:106 |
| Startup.AdapterConstructorFound | PubSubClient/StartupExtensions.cs:51-60 | with such a constructor at index k, a well-formed handler is never left without a matching constructor: the consumer is built by the constructor at k or an earlier one, or its constructor's failure is logged |
| Startup.BindOutcomeSpec | PubSubClient/StartupExtensions.cs:51-65 | a bad handler shape is logged with its error; an added consumer uses a bound callback for the method and the first matching constructor, whose constructor ran normally; no matching constructor means none matches; a throwing constructor is logged, never added |
| Startup.FirstUnresolved | PubSubClient/StartupExtensions.cs:45-49 | the index of the first method whose declaring type cannot be resolved, or the number of methods; every method before it resolves |
| Startup.Step | PubSubClient/StartupExtensions.cs:50-60 | one iteration adds at most one consumer, and does so exactly when binding succeeds; that consumer uses the method's first attribute |
| Startup.PlanGrowsOnly | PubSubClient/StartupExtensions.cs:45-66 | consumers added earlier remain whatever later iterations do |
| Startup.PlanSourcesIncreasing | PubSubClient/StartupExtensions.cs:45-66 | consumers come at most one per method, in method order |
| Startup.PlanEntriesAreAdded | PubSubClient/StartupExtensions.cs:50-60 | every consumer comes from a method whose binding succeeded, with its callback, constructor and first attribute's type |
| Startup.PlanCoversAdded | PubSubClient/StartupExtensions.cs:45-66 | every method whose binding succeeds gets a consumer; a failing handler does not stop later ones |
| Startup.LoggedExactlyTheFailures | PubSubClient/StartupExtensions.cs:51-65 | exactly the methods with a bad shape or a throwing consumer constructor are logged; one with no matching constructor is not |
| Startup.BindConsumer | PubSubClient/StartupExtensions.cs:50-65 | one loop iteration adds the consumer and the log entry that Plan and LoggedIndices prescribe; the method's definition type is then cached, and no cached constructor is removed or replaced |
| Startup.RegisterConsumers | PubSubClient/StartupExtensions.cs:45-66 | over methods whose declaring types resolve, the consumers built are the Plan's, one for one and in order, with fresh definitions; the log is LoggedIndices; no cached constructor is removed or replaced |
| Startup.ConstructAttributes | PubSubClient/StartupExtensions.cs:33 | constructing every attribute during the scan succeeds if and only if every attribute type is an IMicroServiceDefinition with a public parameterless constructor that returns normally; then every attribute type is cached; no cached constructor is removed or replaced |
| Startup.BuildHostedService | PubSubClient/StartupExtensions.cs:40-71 | the factory succeeds exactly when every declaring type resolves; otherwise it fails with the first unresolvable type; the log covers the methods before that one; on success the consumers are the whole Plan's; no cached constructor is removed or replaced |
| Startup.AddPubSubClient | PubSubClient/StartupExtensions.cs:22-72 | an attribute type that is not a definition, lacks a public parameterless constructor or whose constructor throws aborts the call with nothing logged; otherwise the log is that of the methods before the first unresolvable declaring type, an unresolvable type fails the call, and on success the consumers are those of the registration loop over all scanned methods; no cached constructor is removed or replaced |
| Messaging.Dispatch | PubSubClient.Kafka/KafkaConsumerService.cs:92-102 | null invokes nothing; a value invokes once, with the envelope exactly when the handler takes two parameters |
| KafkaConsumer.Iterate | PubSubClient.Kafka/KafkaConsumerService.cs:88-121 | an iteration stops exactly on the polls that end the loop, for their reason; it invokes exactly for a message decoded to a non-null value, with that value, and with the ConsumeResult exactly when the handler takes two parameters |
| KafkaConsumer.Listen | PubSubClient.Kafka/KafkaConsumerService.cs:84-123 | the handler is invoked at most once per consumed message |
| KafkaConsumer.FirstEnd | PubSubClient.Kafka/KafkaConsumerService.cs:86-121 | the index found ends the loop, and no poll before it does |
| KafkaConsumer.IterateAgrees | PubSubClient.Kafka/KafkaConsumerService.cs:88-121 | an iteration stops exactly on cancellation, OperationCanceledException, a fatal ConsumeException or any other exception, and invokes for a non-null message |
| KafkaConsumer.ListenHandlesUpToFirstEnd | PubSubClient.Kafka/KafkaConsumerService.cs:84-123 | the run invokes the handler, in order, for every non-null message up to and including the first poll that ends it, and exits for that poll's reason |
| KafkaConsumer.ListenIgnoresLaterPolls | PubSubClient.Kafka/KafkaConsumerService.cs:107-121 | nothing after a poll that ends the loop has any effect |
| KafkaConsumer.NonFatalErrorContinues | PubSubClient.Kafka/KafkaConsumerService.cs:111-116 | a non-fatal consume error changes nothing in the run |
| KafkaConsumer.KafkaConsumerService.constructor | PubSubClient.Kafka/KafkaConsumerService.cs:40-48 | group id is ExchangeName; the topic is `{ExchangeName}-{FullName}-{assembly}`; `_twoParam` and the payload type agree with the callback |
| KafkaConsumer.KafkaConsumerService.HandlePoll | PubSubClient.Kafka/KafkaConsumerService.cs:88-121 | one pass of the try block is one Iterate step of the loop's specification |
| KafkaConsumer.KafkaConsumerService.StartListenerLoop | PubSubClient.Kafka/KafkaConsumerService.cs:84-123 | the loop's invocations and exit reason are Listen of the polls |
| KafkaConsumer.NewKafkaConsumerService | PubSubClient.Kafka/KafkaConsumerService.cs:34-51 | construction succeeds iff the routing key (read for the debug log) can be derived; afterwards the definition's memoised key is the derived key, or nothing |
| RabbitMqConsumer.Channel.constructor | PubSubClient.RabbitMQ/RabbitMqConsumerService.cs:45 | a new channel has had no calls |
| RabbitMqConsumer.ConsumerQueueName | PubSubClient.RabbitMQ/RabbitMqConsumerService.cs:43 | the consumer's queue is the definition's queue name `{FullName}-{assembly}` |
| RabbitMqConsumer.Topology | PubSubClient.RabbitMQ/RabbitMqConsumerService.cs:45-50 | three calls: a durable queue declaration, a durable direct exchange declaration, and a bind of that queue to that exchange under the routing key |
| RabbitMqConsumer.Receive | PubSubClient.RabbitMQ/RabbitMqConsumerService.cs:59-79 | the handler runs iff the UTF-8 body decodes to a non-null value; the ack is BasicAck(tag, false), sent iff neither the decode nor the handler threw |
| RabbitMqConsumer.NullPayloadIsAcked | PubSubClient.RabbitMQ/RabbitMqConsumerService.cs:64-76 | a null payload invokes nothing and is still acknowledged |
| RabbitMqConsumer.AnyDecodedShapeReachesHandler | PubSubClient.Tests/RabbitMqTests.cs:83-98 | whatever object the decoder makes of a differently shaped body reaches the handler, and the delivery is acknowledged |
| RabbitMqConsumer.RabbitMqConsumerService.constructor | PubSubClient.RabbitMQ/RabbitMqConsumerService.cs:49-50 | `_twoParam` and the payload type agree with the callback |
| RabbitMqConsumer.RabbitMqConsumerService.ReadMessages | PubSubClient.RabbitMQ/RabbitMqConsumerService.cs:80 | consumption starts on the queue with autoAck off |
| RabbitMqConsumer.RabbitMqConsumerService.OnReceived | PubSubClient.RabbitMQ/RabbitMqConsumerService.cs:59-79 | the handler's invocation and the channel's calls are those of Receive |
| RabbitMqConsumer.NewRabbitMqConsumerService | PubSubClient.RabbitMQ/RabbitMqConsumerService.cs:36-53 | declares the durable queue `{FullName}-{assembly}` and the direct exchange, then binds under RoutingKey; a key that cannot be derived throws after the two declarations; afterwards the definition's memoised key is the derived key, or nothing |
| RabbitMqConsumer.QueueIsDefinitionQueueName | PubSubClient.RabbitMQ/RabbitMqConsumerService.cs:43 | the consumer's queue is the definition's QueueName |
| ActiveMqConsumer.ListenerStep | PubSubClient.ActiveMQ/ActiveMqConsumerService.cs:41-59 | one listener invokes at most once, exactly for a non-null value, with the message exactly when the handler takes two parameters |
| ActiveMqConsumer.Repeat | PubSubClient.ActiveMQ/ActiveMqConsumerService.cs:41 | k listeners make k copies of one listener's invocations |
| ActiveMqConsumer.ActiveMqConsumerService.constructor | PubSubClient.ActiveMQ/ActiveMqConsumerService.cs:26-34 | the connection is started (`IsStarted` holds), the session is AutoAcknowledge, the consumer is on the queue, and there are no listeners |
| ActiveMqConsumer.ActiveMqConsumerService.ReadMessages | PubSubClient.ActiveMQ/ActiveMqConsumerService.cs:39-61 | each call attaches one more listener and makes no broker call |
| ActiveMqConsumer.ActiveMqConsumerService.OnMessage | PubSubClient.ActiveMQ/ActiveMqConsumerService.cs:41-59 | a message produces each attached listener's invocations, in order, and no acknowledgement call; when the decoder throws, or the handler throws for a non-null value, every listener raises an unhandled exception |
| ActiveMqConsumer.IsStartedUnchanged | PubSubClient.ActiveMQ/ActiveMqConsumerService.cs:67 | calls that neither start nor stop the connection leave `IsStarted` as it was |
| ActiveMqConsumer.DisposeStops | PubSubClient.ActiveMQ/ActiveMqConsumerService.cs:63-73 | after Dispose the connection is not started |
| ActiveMqConsumer.SecondDisposeSkipsConnection | PubSubClient.ActiveMQ/ActiveMqConsumerService.cs:63-73 | a second Dispose closes the consumer and the session again but neither stops nor closes the connection |
| ActiveMqConsumer.ActiveMqConsumerService.Dispose | PubSubClient.ActiveMQ/ActiveMqConsumerService.cs:63-73 | closes the consumer, then the session; stops and closes the connection exactly when the calls so far leave it started |
| ActiveMqConsumer.NewActiveMqConsumerService | PubSubClient.ActiveMQ/ActiveMqConsumerService.cs:19-37 | the queue is `{ExchangeName}-{FullName}-{assembly}`; construction succeeds iff the routing key (read for the debug log) can be derived; afterwards the definition's memoised key is the derived key, or nothing |
| ActiveMqConsumer.ListenersMultiplyInvocations | PubSubClient.ActiveMQ/ActiveMqConsumerService.cs:39-61 | after k ReadMessages calls, a non-null message reaches the handler k times with the same payload |
| RabbitMqPublisher.DeclaredExchangesAppend | PubSubClient.RabbitMQ/RabbitMqPublisherService.cs:51-55 | the exchanges declared by two runs of calls are the first run's, then the second's |
| RabbitMqPublisher.RabbitMqPublisherService.constructor | PubSubClient.RabbitMQ/RabbitMqPublisherService.cs:19 | no exchange is recorded and nothing is declared |
| RabbitMqPublisher.RabbitMqPublisherService.PublishAsync | PubSubClient.RabbitMQ/RabbitMqPublisherService.cs:49-61 | an unknown exchange is declared direct and durable, then recorded; a known one is not redeclared; exactly one body, the UTF-8 of the JSON text, is published; each exchange stays declared once |
| RabbitMqPublisher.RabbitMqPublisherService.PublishDefinitionAsync | PubSubClient.RabbitMQ/RabbitMqPublisherService.cs:45-46 | publishes under ExchangeName and RoutingKey, pool suffix included; a key that cannot be derived throws before any channel call; afterwards the definition's memoised key is the derived key, or nothing |
| RabbitMqPublisher.PublishReachesConsumerIffSamePool | PubSubClient.RabbitMQ/RabbitMqPublisherService.cs:45-46 | a definition-overload publish matches a consumer's binding for the same type iff both use the same pool |
| RabbitMqPublisher.PublishTwice | PubSubClient.RabbitMQ/RabbitMqPublisherService.cs:51-55 | two publishes to a new exchange declare it once, before the first body |
| KafkaPublisher.KafkaPublisherService.constructor | PubSubClient.Kafka/KafkaPublisherService.cs:29-39 | nothing has been produced |
| KafkaPublisher.KafkaPublisherService.PublishAsync | PubSubClient.Kafka/KafkaPublisherService.cs:46-51 | exactly one message, the JSON text, produced to `{exchange}-{routingKey}-{assembly}` |
| KafkaPublisher.KafkaPublisherService.PublishDefinitionAsync | PubSubClient.Kafka/KafkaPublisherService.cs:42-43 | the routing key is the type's full name, so the pool plays no part, and the topic is the one the Kafka consumer subscribes to |
| ActiveMqPublisher.ActiveMqPublisherService.constructor | PubSubClient.ActiveMQ/ActiveMqPublisherService.cs:40-42 | the connection is started (`IsStarted` holds), the session is AutoAcknowledge, and a producer is created |
| ActiveMqPublisher.ActiveMqPublisherService.PublishAsync | PubSubClient.ActiveMQ/ActiveMqPublisherService.cs:52-57 | exactly one text message, the JSON text, sent to `{exchange}-{routingKey}-{assembly}` |
| ActiveMqPublisher.ActiveMqPublisherService.PublishDefinitionAsync | PubSubClient.ActiveMQ/ActiveMqPublisherService.cs:48-49 | the routing key is the type's full name, so the message goes to the ActiveMQ consumer's queue |
| ActiveMqPublisher.ActiveMqPublisherService.Dispose | PubSubClient.ActiveMQ/ActiveMqPublisherService.cs:60-70 | closes the producer, then the session; stops and closes the connection exactly when the calls so far leave it started |
| ActiveMqPublisher.DisposeClosesInOrder | PubSubClient.ActiveMQ/ActiveMqPublisherService.cs:60-70 | the session is closed second; the connection is stopped and closed, last, iff it is started |

## Left out

- Dependency injection, the service provider and `AsyncConsumerBackgroundService`:
  - left out because they are framework plumbing;
  - the hosted-service factory returns the consumers it would add, in order;
  - the singleton registration of declaring types (StartupExtensions.cs:35-38) and the handler instance are not modelled. Whether `GetRequiredService` can build a declaring type is the `resolvable` set of `Env`. It covers static and abstract classes and unregistered constructor dependencies;
  - a method with a null declaring type (StartupExtensions.cs:47) cannot occur in the model, since every method comes from a scanned type.
- Startup.AddPubSubClient: the scan is done once. The source's `consumerMethods` is a lazy query that the hosted-service factory enumerates again (StartupExtensions.cs:45). The model therefore does not capture methods from assemblies loaded after AddPubSubClient returns. Their declaring types were never registered, so in the source they abort the factory.
- Startup.CreateFuncFromMethodInfo: generic handler methods and handlers declared in generic types are not distinguished, because `MethodDesc` carries no generic parameters. CreateDelegate rejects these too.
- Reflection: attribute instantiation, `Delegate.CreateDelegate`, `Expression.Compile` and `DynamicInvoke` are replaced by descriptors. Whether a consumer constructor returns normally is the `constructs` parameter.
- Whether a handler throws is the `handlerThrows` parameter. It stands for DynamicInvoke throwing synchronously, which only a handler not marked `async` can do. An `async` handler puts its exception in the returned `Task`, and no one awaits that `Task`. For such a handler `handlerThrows` is false.
- ActiveMqConsumer.ActiveMqConsumerService.OnMessage: the listener is an `async void` lambda. A throwing decoder or handler raises an unhandled exception on the thread pool, and that ends the process. The model counts these exceptions in `unhandled`. It does not model the process ending, or when that happens relative to the other listeners.
- Abstract definition types with a public parameterless constructor are not distinguished. Whether `Expression.New` rejects them before TryAdd or the compiled delegate throws after it is .NET behaviour the model does not settle; `ctorThrows` covers only the second.
- Definitions are assumed to derive from MicroServiceDefinitionBase and to override neither the virtual `RoutingKey` (MicroServiceDefinitionBase.cs:43) nor `ToString` (MicroServiceDefinitionBase.cs:68). The attribute accepts any IMicroServiceDefinition (ConsumerMethodAttribute.cs:37). The model does not capture the keys and names of one that does not derive from the base class, or that overrides those members.
- Concurrency is left out, and every cache is modelled single-threaded:
  - the `RoutingKey` lock;
  - `ConcurrentDictionary` atomicity;
  - the check-then-add race on `_exchanges`;
  - the RabbitMQ consumer's round-robin between several consumers of one queue.
- JSON serialisation and deserialisation and UTF-8 encoding are library behaviour. They are function parameters, and no round trip between them is claimed.
- Logging, except that each consumer constructor reads `RoutingKey` for its debug log. That read can throw and memoises the key.
- Broker connection setup is left out because the SDKs are opaque:
  - configuration lookup and its `InvalidOperationException`;
  - connection and model creation;
  - Kafka topic provisioning (`EnsureTopicExistsAsync`);
  - the RabbitMQ and Kafka `Dispose` methods, and Kafka's `Flush`.
- The entry assembly's name is a fixed string parameter. Each definition reads it through its own lazy field (MicroServiceDefinitionBase.cs:11) and the adapters through a static one; all see the same name.
- `Type.FullName` being null (the `?? string.Empty` fallbacks) cannot occur in the model, because a `TypeDesc` always has a full name.
- `String.StartsWith("System")` is compared ordinally. The source's culture-sensitive comparison is not modelled.
- The two-line `ConsumerMethodAttribute.ToString` uses `\n`. The verbatim string's line ending depends on how the source file is stored.
- `ServicePool` is an unbounded `int`, so no `(int)` overflow is possible. Exception message texts are not modelled, only which check failed.
- KafkaConsumer.Listen: `EndOfInput` is not a source behaviour. It marks the end of the finite sequence of polls the model observes, where the real loop would keep polling.
- CancellationToken handling in ActiveMQ and RabbitMQ `ReadMessages` is not modelled: neither reads the token, and both return right after attaching the handler.
