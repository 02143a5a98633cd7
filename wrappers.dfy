/** Option and Result for the values the source represents with `null` and with exceptions. */
module Wrappers {

  datatype Option<+T> = None | Some(value: T)

  datatype Result<+R, +E> = Success(value: R) | Failure(error: E)

  /** The exceptions the modelled code raises, by the condition that raises them. */
  datatype Error =
    /** String.Replace called with an empty old value (a definition type in the global namespace). */
    | ReplaceEmptyOldValue
    /** ConsumerMethodAttribute: the type does not implement IMicroServiceDefinition. */
    | NotADefinition(typeName: string)
    /** ConsumerMethodAttribute: the type has no public parameterless constructor. */
    | NoDefaultConstructor(typeName: string)
    /** ConsumerMethodAttribute: the definition type's own parameterless constructor threw. */
    | DefinitionConstructorFailed(typeName: string)
    /** CreateFuncFromMethodInfo: the handler does not return exactly Task. */
    | HandlerMustReturnTask(methodName: string)
    /** CreateFuncFromMethodInfo: the handler's parameter list has the wrong shape. */
    | HandlerParameterShape(methodName: string)
    /** Delegate.CreateDelegate: a static handler cannot be bound to a Func over the handler instance. */
    | StaticHandlerNotBindable(methodName: string)
    /** The broker adapter's constructor threw (missing configuration, connection failure, ...). */
    | ConsumerConstructionFailed
    /** GetRequiredService: the service provider cannot build the handler's declaring type. */
    | ServiceNotResolvable(typeName: string)
}
