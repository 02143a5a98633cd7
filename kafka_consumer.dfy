/**
 * KafkaConsumerService: one consumer group per exchange, one topic per definition
 * type, and a listener loop that handles one consumed message per iteration and
 * stops on cancellation, a fatal consume error or any other exception.
 */
module KafkaConsumer {
  import opened Wrappers
  import opened Reflection
  import opened Definitions
  import opened Startup
  import opened Messaging

  /** ConsumeResult<Ignore, string>: where the message was read, and its value. */
  datatype ConsumeResult = ConsumeResult(partition: int, offset: int, value: string)

  /** What one iteration of the listener loop meets. */
  datatype Poll =
    /** the token is cancelled when the loop condition is tested */
    | TokenCancelled
    /** Consume(token) raises OperationCanceledException */
    | ConsumeCanceled
    /** Consume(token) returns a message; `handlerThrows` says whether DynamicInvoke would throw for it */
    | Consumed(cr: ConsumeResult, handlerThrows: bool)
    /** Consume(token) raises ConsumeException */
    | ConsumeError(fatal: bool)

  /** Why the loop ended; EndOfInput means the observed polls ran out while the loop would go on. */
  datatype Exit = CancellationRequested | OperationCanceled | FatalConsumeError | UnexpectedError | EndOfInput

  /** One iteration: the invocation it makes, if any, and whether the loop ends after it. */
  datatype Iteration = Continue(made: Option<Invocation<ConsumeResult>>) | Stop(made: Option<Invocation<ConsumeResult>>, exit: Exit)

  /** A run of the loop: the handler invocations in order, and the reason it ended. */
  datatype Run = Run(invocations: seq<Invocation<ConsumeResult>>, exit: Exit)

  /**
   * One iteration of the loop: a message decoded to a value is dispatched; the
   * loop stops exactly on the polls `Ends` names, for the reason `ExitOf` gives.
   */
  function Iterate(p: Poll, twoParam: bool, target: TypeDesc, decode: Decoder): (r: Iteration)
    ensures r.Stop? <==> Ends(p, target, decode)
    ensures r.Stop? ==> r.exit == ExitOf(p, target, decode)
    ensures r.made.Some? <==> p.Consumed? && decode(p.cr.value, target).Value?
    ensures r.made.Some? ==> r.made.value.payload == decode(p.cr.value, target).obj && (r.made.value.Invoke2? <==> twoParam)
    ensures r.made.Some? && twoParam ==> r.made.value.envelope == p.cr
  {
    match p
    case TokenCancelled => Stop(None, CancellationRequested)
    case ConsumeCanceled => Stop(None, OperationCanceled)
    case ConsumeError(fatal) => if fatal then Stop(None, FatalConsumeError) else Continue(None)
    case Consumed(cr, throws) =>
      var obj := decode(cr.value, target);
      if obj.Fail? then Stop(None, UnexpectedError)
      else
        var made := Dispatch(twoParam, cr, obj);
        if made.Some? && throws then Stop(made, UnexpectedError) else Continue(made)
  }

  /** The number of polls that deliver a message. */
  function ConsumedCount(polls: seq<Poll>): nat {
    if polls == [] then 0 else (if polls[0].Consumed? then 1 else 0) + ConsumedCount(polls[1..])
  }

  /** StartListenerLoop over the polls it meets, in order. */
  function Listen(polls: seq<Poll>, twoParam: bool, target: TypeDesc, decode: Decoder): (r: Run)
    ensures |r.invocations| <= ConsumedCount(polls)
  {
    if polls == [] then Run([], EndOfInput)
    else
      match Iterate(polls[0], twoParam, target, decode)
      case Stop(made, exit) => Run(OptionToSeq(made), exit)
      case Continue(made) =>
        var rest := Listen(polls[1..], twoParam, target, decode);
        Run(OptionToSeq(made) + rest.invocations, rest.exit)
  }

  /** A run preceded by the invocations already made. */
  function After(done: seq<Invocation<ConsumeResult>>, run: Run): Run {
    Run(done + run.invocations, run.exit)
  }

  lemma AfterAfter(a: seq<Invocation<ConsumeResult>>, b: seq<Invocation<ConsumeResult>>, run: Run)
    ensures After(a, After(b, run)) == After(a + b, run)
  {
    assert a + (b + run.invocations) == a + b + run.invocations;
  }

  /** Listen over the polls from index `i` on, by index. */
  function ListenFrom(polls: seq<Poll>, i: nat, twoParam: bool, target: TypeDesc, decode: Decoder): Run
    requires i <= |polls|
    decreases |polls| - i
  {
    if i == |polls| then Run([], EndOfInput)
    else
      match Iterate(polls[i], twoParam, target, decode)
      case Stop(made, exit) => Run(OptionToSeq(made), exit)
      case Continue(made) =>
        var rest := ListenFrom(polls, i + 1, twoParam, target, decode);
        Run(OptionToSeq(made) + rest.invocations, rest.exit)
  }

  lemma {:induction false} ListenFromIsListen(polls: seq<Poll>, i: nat, twoParam: bool, target: TypeDesc, decode: Decoder)
    requires i <= |polls|
    ensures ListenFrom(polls, i, twoParam, target, decode) == Listen(polls[i..], twoParam, target, decode)
    decreases |polls| - i
  {
    if i < |polls| {
      ListenFromIsListen(polls, i + 1, twoParam, target, decode);
      assert polls[i..][1..] == polls[i + 1..];
    }
  }

  /** The polls after which the loop does not run again. */
  predicate Ends(p: Poll, target: TypeDesc, decode: Decoder) {
    match p
    case TokenCancelled => true
    case ConsumeCanceled => true
    case ConsumeError(fatal) => fatal
    case Consumed(cr, throws) => decode(cr.value, target).Fail? || (decode(cr.value, target).Value? && throws)
  }

  /** The exit reason of a poll that ends the loop. */
  function ExitOf(p: Poll, target: TypeDesc, decode: Decoder): Exit
    requires Ends(p, target, decode)
  {
    match p
    case TokenCancelled => CancellationRequested
    case ConsumeCanceled => OperationCanceled
    case ConsumeError(_) => FatalConsumeError
    case Consumed(_, _) => UnexpectedError
  }

  /** The index of the first poll that ends the loop, if any. */
  function FirstEnd(polls: seq<Poll>, target: TypeDesc, decode: Decoder): (r: Option<nat>)
    ensures r.Some? ==> r.value < |polls| && Ends(polls[r.value], target, decode)
    ensures forall i :: 0 <= i < (if r.Some? then r.value else |polls|) ==> !Ends(polls[i], target, decode)
  {
    if polls == [] then None
    else if Ends(polls[0], target, decode) then Some(0)
    else match FirstEnd(polls[1..], target, decode)
      case None => None
      case Some(i) => Some(i + 1)
  }

  /** The invocation a poll's message leads to when decoding gives a non-null value; no stopping rule. */
  function DeliveredBy(p: Poll, twoParam: bool, target: TypeDesc, decode: Decoder): seq<Invocation<ConsumeResult>> {
    if p.Consumed? && decode(p.cr.value, target).Value? then [Dispatch(twoParam, p.cr, decode(p.cr.value, target)).value] else []
  }

  /** Every non-null decoded message delivered by the polls, as its handler invocation, in order. */
  function Delivered(polls: seq<Poll>, twoParam: bool, target: TypeDesc, decode: Decoder): seq<Invocation<ConsumeResult>> {
    if polls == [] then [] else DeliveredBy(polls[0], twoParam, target, decode) + Delivered(polls[1..], twoParam, target, decode)
  }

  /** An iteration stops exactly on the polls that end the loop, for their reason, after invoking for the message's non-null value. */
  lemma IterateAgrees(p: Poll, twoParam: bool, target: TypeDesc, decode: Decoder)
    ensures Iterate(p, twoParam, target, decode).Stop? <==> Ends(p, target, decode)
    ensures Ends(p, target, decode) ==> Iterate(p, twoParam, target, decode).exit == ExitOf(p, target, decode)
    ensures OptionToSeq(Iterate(p, twoParam, target, decode).made) == DeliveredBy(p, twoParam, target, decode)
  {
  }

  /** One unfolding of Listen on a non-empty suffix. */
  lemma ListenUnfold(polls: seq<Poll>, twoParam: bool, target: TypeDesc, decode: Decoder)
    requires polls != []
    ensures var it := Iterate(polls[0], twoParam, target, decode);
      var rest := Listen(polls[1..], twoParam, target, decode);
      Listen(polls, twoParam, target, decode) ==
        if it.Stop? then Run(OptionToSeq(it.made), it.exit) else Run(OptionToSeq(it.made) + rest.invocations, rest.exit)
  {
  }

  /**
   * The loop handles the polls up to and including the first one that ends it, in
   * order, invoking the handler once for every non-null message among them; it
   * ends for that poll's reason, or runs on if no poll ends it.
   */
  lemma {:induction false} ListenHandlesUpToFirstEnd(polls: seq<Poll>, twoParam: bool, target: TypeDesc, decode: Decoder)
    ensures var run := Listen(polls, twoParam, target, decode);
      match FirstEnd(polls, target, decode)
      case None => run == Run(Delivered(polls, twoParam, target, decode), EndOfInput)
      case Some(i) =>
        run == Run(Delivered(polls[..i + 1], twoParam, target, decode), ExitOf(polls[i], target, decode))
  {
    if polls != [] {
      ListenHandlesUpToFirstEnd(polls[1..], twoParam, target, decode);
      ListenUnfold(polls, twoParam, target, decode);
      IterateAgrees(polls[0], twoParam, target, decode);
      if Ends(polls[0], target, decode) {
        assert polls[..1] == [polls[0]];
        assert Delivered(polls[..1], twoParam, target, decode) == DeliveredBy(polls[0], twoParam, target, decode);
      } else {
        var f := FirstEnd(polls[1..], target, decode);
        if f.Some? {
          var i := f.value;
          assert polls[..i + 2][0] == polls[0];
          assert polls[..i + 2][1..] == polls[1..][..i + 1];
        }
      }
    }
  }

  /** Nothing after a poll that ends the loop has any effect. */
  lemma {:induction false} ListenIgnoresLaterPolls(polls: seq<Poll>, later: seq<Poll>, twoParam: bool, target: TypeDesc, decode: Decoder)
    requires exists i :: 0 <= i < |polls| && Ends(polls[i], target, decode)
    ensures Listen(polls + later, twoParam, target, decode) == Listen(polls, twoParam, target, decode)
  {
    assert (polls + later)[1..] == polls[1..] + later;
    if !Ends(polls[0], target, decode) {
      var i :| 0 <= i < |polls| && Ends(polls[i], target, decode);
      assert polls[1..][i - 1] == polls[i];
      ListenIgnoresLaterPolls(polls[1..], later, twoParam, target, decode);
    }
  }

  /** A non-fatal consume error is logged and the loop goes on as if it had not happened. */
  lemma NonFatalErrorContinues(rest: seq<Poll>, twoParam: bool, target: TypeDesc, decode: Decoder)
    ensures Listen([ConsumeError(false)] + rest, twoParam, target, decode) == Listen(rest, twoParam, target, decode)
  {
    assert ([ConsumeError(false)] + rest)[1..] == rest;
  }

  class KafkaConsumerService {
    /** `brokerConfig.GroupId`: one consumer group per exchange */
    const groupId: string
    /** the only topic subscribed to */
    const topic: string
    const callback: Callback
    /** `_twoParam` */
    const twoParam: bool
    /** the handler's payload parameter type, which messages are decoded into */
    const payloadType: TypeDesc

    ghost predicate Valid() {
      callback.Bound() && twoParam == callback.TwoParam() && payloadType == callback.DecodeTarget()
    }

    constructor (definition: MicroServiceDefinition, callback: Callback, assemblyName: string)
      requires callback.Bound()
      ensures Valid() && this.callback == callback
      ensures groupId == definition.ExchangeName() && topic == DefinitionAddress(definition.typ, assemblyName)
    {
      groupId := definition.ExchangeName();
      topic := definition.typ.exchangeName + "-" + definition.typ.fullName + "-" + assemblyName;
      this.callback := callback;
      twoParam := |callback.handler.parameters| > 1;
      payloadType := callback.handler.parameters[if |callback.handler.parameters| > 1 then 1 else 0];
    }

    /**
     * One pass of the loop body after the token test: consume, decode into the
     * handler's payload type, dispatch; `stop` is the exception kind that breaks
     * out of the loop, if any.
     */
    method HandlePoll(polls: seq<Poll>, i: nat, decode: Decoder)
      returns (made: Option<Invocation<ConsumeResult>>, stop: Option<Exit>)
      requires i < |polls| && !polls[i].TokenCancelled?
      ensures Iterate(polls[i], twoParam, payloadType, decode) == if stop.Some? then Stop(made, stop.value) else Continue(made)
      ensures ListenFrom(polls, i, twoParam, payloadType, decode) ==
          if stop.Some? then Run(OptionToSeq(made), stop.value)
          else After(OptionToSeq(made), ListenFrom(polls, i + 1, twoParam, payloadType, decode))
    {
      var p := polls[i];
      made, stop := None, None;
      if p.ConsumeCanceled? {
        stop := Some(OperationCanceled);
      } else if p.ConsumeError? {
        if p.fatal {
          stop := Some(FatalConsumeError);
        }
      } else {
        var obj := decode(p.cr.value, payloadType);
        if obj.Fail? {
          stop := Some(UnexpectedError);
        } else if obj.Value? {
          made := Some(if !twoParam then Invoke1(obj.obj) else Invoke2(p.cr, obj.obj));
          if p.handlerThrows {
            stop := Some(UnexpectedError);
          }
        }
      }
    }

    /** The loop over the polls it meets, in order, until one ends it. */
    method StartListenerLoop(polls: seq<Poll>, decode: Decoder) returns (invocations: seq<Invocation<ConsumeResult>>, exit: Exit)
      ensures Run(invocations, exit) == Listen(polls, twoParam, payloadType, decode)
    {
      ghost var spec := ListenFrom(polls, 0, twoParam, payloadType, decode);
      ListenFromStart(polls, twoParam, payloadType, decode);
      invocations := [];
      var i := 0;
      while i < |polls| && !polls[i].TokenCancelled?
        invariant 0 <= i <= |polls|
        invariant spec == After(invocations, ListenFrom(polls, i, twoParam, payloadType, decode))
      {
        var made, stop := HandlePoll(polls, i, decode);
        AfterAfter(invocations, OptionToSeq(made), ListenFrom(polls, i + 1, twoParam, payloadType, decode));
        invocations := invocations + OptionToSeq(made);
        if stop.Some? {
          return invocations, stop.value;
        }
        i := i + 1;
      }
      exit := if i < |polls| then CancellationRequested else EndOfInput;
      ListenFromQuiet(polls, i, twoParam, payloadType, decode);
      AfterNothing(invocations, exit);
    }
  }

  /** The loop's specification from the first poll is Listen of all polls. */
  lemma ListenFromStart(polls: seq<Poll>, twoParam: bool, target: TypeDesc, decode: Decoder)
    ensures ListenFrom(polls, 0, twoParam, target, decode) == Listen(polls, twoParam, target, decode)
  {
    ListenFromIsListen(polls, 0, twoParam, target, decode);
    assert polls[0..] == polls;
  }

  /** With the polls used up, or the token cancelled, the rest of the run invokes nothing. */
  lemma ListenFromQuiet(polls: seq<Poll>, i: nat, twoParam: bool, target: TypeDesc, decode: Decoder)
    requires i <= |polls| && (i < |polls| ==> polls[i].TokenCancelled?)
    ensures ListenFrom(polls, i, twoParam, target, decode) == Run([], if i < |polls| then CancellationRequested else EndOfInput)
  {
  }

  lemma AfterNothing(done: seq<Invocation<ConsumeResult>>, exit: Exit)
    ensures After(done, Run([], exit)) == Run(done, exit)
  {
    assert done + [] == done;
  }

  /**
   * `new KafkaConsumerService(...)`: the constructor ends by reading RoutingKey for
   * its debug log, so a definition whose key cannot be derived makes it throw.
   */
  method NewKafkaConsumerService(definition: MicroServiceDefinition, callback: Callback, assemblyName: string)
    returns (r: Result<KafkaConsumerService, Error>)
    requires definition.Valid() && callback.Bound()
    modifies definition`routingKey
    ensures definition.Valid()
    ensures definition.routingKey == KeyAfterRead(definition.typ, definition.pool)
    ensures r.Success? <==> DeriveRoutingKey(definition.typ, definition.pool).Success?
    ensures r.Success? ==> fresh(r.value) && r.value.Valid() && r.value.callback == callback &&
                           r.value.groupId == definition.ExchangeName() &&
                           r.value.topic == DefinitionAddress(definition.typ, assemblyName)
  {
    var service := new KafkaConsumerService(definition, callback, assemblyName);
    var key, _ := definition.RoutingKey();
    if key.Failure? {
      return Failure(key.error);
    }
    return Success(service);
  }
}
