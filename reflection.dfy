/**
 * An abstract stand-in for the .NET reflection facts the core consults: a runtime
 * type, a method's signature and attributes, and a constructor's parameter list.
 */
module Reflection {

  const ObjectName := "System.Object"
  const TaskName := "System.Threading.Tasks.Task"
  const DelegateName := "System.Delegate"
  const DefinitionInterfaceName := "PubSubClient.IMicroServiceDefinition"

  /** A runtime type. */
  datatype TypeDesc = TypeDesc(
    /** Type.FullName: namespace, '.', and the type name ('+' separates nested types) */
    fullName: string,
    /** Type.Namespace, or "" for a type in the global namespace (where .NET gives null) */
    ns: string,
    /** full names of every base class and implemented interface, transitively */
    supertypes: set<string>,
    /** the type has a public parameterless constructor */
    hasDefaultCtor: bool,
    /** running that constructor throws; meaningful for definition types only */
    ctorThrows: bool,
    /** what the type's ExchangeName override returns; meaningful for definition types only */
    exchangeName: string)

  /** typeof(IMicroServiceDefinition) */
  const DefinitionInterface := TypeDesc(DefinitionInterfaceName, "PubSubClient", {ObjectName}, false, false, "")

  /** typeof(System.Delegate), the last parameter type of every consumer service constructor */
  const DelegateType := TypeDesc(DelegateName, "System", {ObjectName}, false, false, "")

  /**
   * `to.IsAssignableFrom(from)`: a value whose runtime type is `from` can be stored
   * in a `to`, because `to` is the same type, System.Object, or one of `from`'s supertypes.
   */
  predicate Assignable(from: TypeDesc, to: TypeDesc) {
    from.fullName == to.fullName || to.fullName == ObjectName || to.fullName in from.supertypes
  }

  /** typeof(IMicroServiceDefinition).IsAssignableFrom(t): the interface itself, or a type that implements it. */
  predicate ImplementsDefinition(t: TypeDesc)
    ensures ImplementsDefinition(t) <==> t.fullName == DefinitionInterfaceName || DefinitionInterfaceName in t.supertypes
  {
    Assignable(t, DefinitionInterface)
  }

  /** A method as MethodInfo describes it. */
  datatype MethodDesc = MethodDesc(
    name: string,
    declaringType: string,
    /** the method is static (the scan includes BindingFlags.Static) */
    isStatic: bool,
    returnType: TypeDesc,
    parameters: seq<TypeDesc>,
    /** the definition type named by each ConsumerMethod attribute on the method, in the order GetCustomAttributes returns them */
    consumerAttributes: seq<TypeDesc>)

  /** A public constructor of the consumer service type, by its parameter types. */
  datatype CtorDesc = CtorDesc(parameters: seq<TypeDesc>)
}
