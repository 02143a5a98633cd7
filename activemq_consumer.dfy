/**
 * ActiveMqConsumerService: an auto-acknowledging session consuming one queue per
 * exchange and definition type; every ReadMessages call attaches one more listener,
 * and every attached listener dispatches each message.
 */
module ActiveMqConsumer {
  import opened Wrappers
  import opened Reflection
  import opened Definitions
  import opened Startup
  import opened Messaging

  /** NMS acknowledgement modes. */
  datatype AckMode = AutoAcknowledge | ClientAcknowledge | DupsOkAcknowledge | Transactional | IndividualAcknowledge

  /** The calls made on the NMS connection, session, consumer and producer. */
  datatype NmsCall =
    | ConnectionStart
    | CreateSession(mode: AckMode)
    | CreateConsumer(queue: string)
    | CreateProducer
    | Send(queue: string, text: string)
    | ConsumerClose
    | ProducerClose
    | SessionClose
    | ConnectionStop
    | ConnectionClose

  /** An NMS text message: its correlation id and body. */
  datatype TextMessage = TextMessage(correlationId: string, body: string)

  /** `IConnection.IsStarted`, read off the calls made: a ConnectionStart with no ConnectionStop after it. */
  function IsStarted(calls: seq<NmsCall>): bool
    decreases |calls|
  {
    if calls == [] then false
    else if calls[|calls| - 1] == ConnectionStart then true
    else if calls[|calls| - 1] == ConnectionStop then false
    else IsStarted(calls[..|calls| - 1])
  }

  /** Dispose's calls: close the first resource, then the session; stop and close the connection only if it is started. */
  function CloseSequence(first: NmsCall, connectionStarted: bool): seq<NmsCall> {
    [first, SessionClose] + if connectionStarted then [ConnectionStop, ConnectionClose] else []
  }

  /** What one listener does with a message: the invocation for a non-null value, nothing otherwise. */
  function ListenerStep(m: TextMessage, twoParam: bool, target: TypeDesc, decode: Decoder): (r: seq<Invocation<TextMessage>>)
    ensures |r| <= 1 && (r != [] <==> decode(m.body, target).Value?)
    ensures r != [] ==> r[0].payload == decode(m.body, target).obj && (r[0].Invoke2? <==> twoParam)
    ensures r != [] && twoParam ==> r[0].envelope == m
  {
    var obj := decode(m.body, target);
    if obj.Fail? then [] else OptionToSeq(Dispatch(twoParam, m, obj))
  }

  /**
   * Whether a listener's body throws: the decoder throws, or the handler throws for
   * a non-null value. The listener is an async void lambda, so the exception is not
   * seen by the event's caller; it is raised unhandled on the thread pool.
   */
  predicate ListenerFaults(m: TextMessage, target: TypeDesc, decode: Decoder, handlerThrows: bool) {
    decode(m.body, target).Fail? || (decode(m.body, target).Value? && handlerThrows)
  }

  /** `k` copies of a sequence, the effect of `k` listeners each doing the same thing. */
  function Repeat<T>(s: seq<T>, k: nat): (r: seq<T>)
    ensures |r| == k * |s|
    ensures forall x :: x in r ==> x in s
  {
    if k == 0 then [] else s + Repeat(s, k - 1)
  }

  class ActiveMqConsumerService {
    /** the calls made on the connection, the session and the consumer, in order */
    var calls: seq<NmsCall>
    /** the number of listeners attached to the consumer's Listener event */
    var listeners: nat
    const queueName: string
    const callback: Callback
    /** `_twoParam` */
    const twoParam: bool
    /** the handler's payload parameter type, which bodies are decoded into */
    const payloadType: TypeDesc

    ghost predicate Valid()
      reads this
    {
      callback.Bound() && twoParam == callback.TwoParam() && payloadType == callback.DecodeTarget()
    }

    /** Start the connection, open an auto-acknowledging session and a consumer on the queue. */
    constructor (queueName: string, callback: Callback)
      requires callback.Bound()
      ensures Valid() && this.queueName == queueName && this.callback == callback
      ensures calls == [ConnectionStart, CreateSession(AutoAcknowledge), CreateConsumer(queueName)] && listeners == 0
      ensures IsStarted(calls)
    {
      this.queueName := queueName;
      this.callback := callback;
      twoParam := |callback.handler.parameters| > 1;
      payloadType := callback.handler.parameters[if |callback.handler.parameters| > 1 then 1 else 0];
      calls := [ConnectionStart, CreateSession(AutoAcknowledge), CreateConsumer(queueName)];
      listeners := 0;
    }

    /** ReadMessages attaches one more listener; it reads no token and makes no broker call. */
    method ReadMessages()
      modifies this`listeners
      ensures listeners == old(listeners) + 1
    {
      listeners := listeners + 1;
    }

    /**
     * A message arriving at the consumer: every attached listener, in attachment
     * order, decodes it and dispatches; none acknowledges (the session does). A
     * listener whose decoder throws makes no invocation. `handlerThrows` says
     * whether DynamicInvoke throws for this message; `unhandled` counts the
     * listeners whose exception escapes to the thread pool.
     */
    method OnMessage(m: TextMessage, decode: Decoder, handlerThrows: bool)
      returns (invocations: seq<Invocation<TextMessage>>, unhandled: nat)
      ensures invocations == Repeat(ListenerStep(m, twoParam, payloadType, decode), listeners)
      ensures unhandled == if ListenerFaults(m, payloadType, decode, handlerThrows) then listeners else 0
    {
      invocations, unhandled := [], 0;
      var k := 0;
      while k < listeners
        invariant k <= listeners
        invariant invocations == Repeat(ListenerStep(m, twoParam, payloadType, decode), k)
        invariant unhandled == if ListenerFaults(m, payloadType, decode, handlerThrows) then k else 0
      {
        var obj := decode(m.body, payloadType);
        var step: seq<Invocation<TextMessage>> := [];
        if obj.Fail? {
          unhandled := unhandled + 1;
        } else if obj.Value? {
          if !twoParam {
            step := [Invoke1(obj.obj)];
          } else {
            step := [Invoke2(m, obj.obj)];
          }
          if handlerThrows {
            unhandled := unhandled + 1;
          }
        }
        RepeatAppend(step, k);
        invocations := invocations + step;
        k := k + 1;
      }
    }

    /** Close the consumer, then the session; stop and close the connection only if it is started. */
    method Dispose()
      modifies this`calls
      ensures calls == old(calls) + CloseSequence(ConsumerClose, IsStarted(old(calls)))
    {
      var connectionStarted := IsStarted(calls);
      calls := calls + [ConsumerClose];
      calls := calls + [SessionClose];
      if connectionStarted {
        calls := calls + [ConnectionStop];
        calls := calls + [ConnectionClose];
      }
    }
  }

  /** Calls that neither start nor stop the connection leave IsStarted as it was. */
  lemma {:induction false} IsStartedUnchanged(calls: seq<NmsCall>, more: seq<NmsCall>)
    requires ConnectionStart !in more && ConnectionStop !in more
    ensures IsStarted(calls + more) == IsStarted(calls)
    decreases |more|
  {
    if more != [] {
      var front := more[..|more| - 1];
      assert (calls + more)[..|calls + more| - 1] == calls + front;
      assert more[|more| - 1] in more;
      assert forall x :: x in front ==> x in more;
      IsStartedUnchanged(calls, front);
    } else {
      assert calls + more == calls;
    }
  }

  /** After Dispose the connection is no longer started, whether or not it was before. */
  lemma DisposeStops(calls: seq<NmsCall>, first: NmsCall)
    requires first.ConsumerClose? || first.ProducerClose?
    ensures !IsStarted(calls + CloseSequence(first, IsStarted(calls)))
  {
    if IsStarted(calls) {
      var s := calls + CloseSequence(first, true);
      assert s[|s| - 1] == ConnectionClose && s[..|s| - 1] == calls + [first, SessionClose, ConnectionStop];
    } else {
      assert CloseSequence(first, false) == [first, SessionClose];
      IsStartedUnchanged(calls, [first, SessionClose]);
    }
  }

  /** A second Dispose closes the first resource and the session again, but no longer stops or closes the connection. */
  lemma SecondDisposeSkipsConnection(calls: seq<NmsCall>, first: NmsCall)
    requires first.ConsumerClose? || first.ProducerClose?
    ensures var once := calls + CloseSequence(first, IsStarted(calls));
      CloseSequence(first, IsStarted(once)) == [first, SessionClose]
  {
    DisposeStops(calls, first);
  }

  /** Repeating once more adds one more copy at the end. */
  lemma {:induction false} RepeatAppend<T>(s: seq<T>, k: nat)
    ensures Repeat(s, k + 1) == Repeat(s, k) + s
  {
    if k > 0 {
      RepeatAppend(s, k - 1);
    }
  }

  /**
   * `new ActiveMqConsumerService(...)`: the constructor ends by reading RoutingKey
   * for its debug log, so a definition whose key cannot be derived makes it throw
   * after the connection is started and the consumer created.
   */
  method NewActiveMqConsumerService(definition: MicroServiceDefinition, callback: Callback, assemblyName: string)
    returns (r: Result<ActiveMqConsumerService, Error>)
    requires definition.Valid() && callback.Bound()
    modifies definition`routingKey
    ensures definition.Valid()
    ensures definition.routingKey == KeyAfterRead(definition.typ, definition.pool)
    ensures r.Success? <==> DeriveRoutingKey(definition.typ, definition.pool).Success?
    ensures r.Success? ==>
              fresh(r.value) && r.value.Valid() && r.value.callback == callback && r.value.listeners == 0 &&
              r.value.queueName == DefinitionAddress(definition.typ, assemblyName) &&
              r.value.calls == [ConnectionStart, CreateSession(AutoAcknowledge), CreateConsumer(r.value.queueName)]
  {
    var queueName := definition.ExchangeName() + "-" + definition.typ.fullName + "-" + assemblyName;
    var service := new ActiveMqConsumerService(queueName, callback);
    var key, _ := definition.RoutingKey();
    if key.Failure? {
      return Failure(key.error);
    }
    return Success(service);
  }

  /** After `k` ReadMessages calls, a message with a non-null payload reaches the handler `k` times. */
  lemma ListenersMultiplyInvocations(m: TextMessage, twoParam: bool, target: TypeDesc, decode: Decoder, k: nat)
    requires decode(m.body, target).Value?
    ensures var r := Repeat(ListenerStep(m, twoParam, target, decode), k);
      |r| == k && forall i :: 0 <= i < k ==> r[i].payload == decode(m.body, target).obj
  {
  }
}
