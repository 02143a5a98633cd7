/**
 * What every consumer shares: the decoded payload, the decoder and serializer the
 * adapters call, and the dispatch step `if (obj is not null) invoke`.
 */
module Messaging {
  import opened Wrappers
  import opened Reflection

  type byte = b: int | 0 <= b < 256

  /** A deserialised object: the type it was decoded into, and its JSON properties. */
  datatype Obj = Obj(typeName: string, properties: map<string, string>)

  /** The outcomes of `JsonSerializer.Deserialize(text, type)`: an object, the JSON literal null, or an exception. */
  datatype Decoded = Value(obj: Obj) | Null | Fail

  /** JsonSerializer.Deserialize, left uninterpreted. */
  type Decoder = (string, TypeDesc) -> Decoded

  /** A handler invocation through DynamicInvoke: `(obj)`, or `(envelope, obj)` for a two-parameter handler. */
  datatype Invocation<E> = Invoke1(payload: Obj) | Invoke2(envelope: E, payload: Obj)

  /**
   * The dispatch step every consumer performs on a decoded value that did not
   * throw: nothing for null, otherwise one invocation whose shape follows the
   * handler's arity and whose payload is the decoded object.
   */
  function Dispatch<E>(twoParam: bool, envelope: E, decoded: Decoded): (r: Option<Invocation<E>>)
    requires !decoded.Fail?
    ensures r.Some? <==> decoded.Value?
    ensures r.Some? ==> r.value.payload == decoded.obj && (r.value.Invoke2? <==> twoParam)
    ensures r.Some? && twoParam ==> r.value.envelope == envelope
  {
    if decoded.Null? then None
    else if !twoParam then Some(Invoke1(decoded.obj))
    else Some(Invoke2(envelope, decoded.obj))
  }

  function OptionToSeq<T>(o: Option<T>): (r: seq<T>)
    ensures |r| <= 1 && (r != [] <==> o.Some?) && (o.Some? ==> r[0] == o.value)
  {
    if o.Some? then [o.value] else []
  }
}
