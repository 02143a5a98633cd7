/**
 * ConsumerMethodAttribute: the attribute that names a handler's definition type.
 * Building it validates the type and constructs a fresh definition through a
 * constructor cached per type.
 */
module ConsumerAttributes {
  import opened Wrappers
  import opened Reflection
  import opened Definitions

  /** The compiled `() => (IMicroServiceDefinition)new T()` delegate: what it builds. */
  datatype DefinitionConstructor = DefinitionConstructor(builds: TypeDesc)

  /** The types that pass the checks before TryAdd, so that their compiled constructor is cached. */
  predicate Cacheable(t: TypeDesc) {
    ImplementsDefinition(t) && t.hasDefaultCtor
  }

  /** The types for which CreateMicroServiceDefinition succeeds, whatever the cache holds: the cached constructor also returns. */
  predicate Creatable(t: TypeDesc) {
    Cacheable(t) && !t.ctorThrows
  }

  /** Every constructor cached in `before` is still cached in `after`, unchanged: TryAdd never removes or overwrites. */
  predicate CacheGrows(before: map<TypeDesc, DefinitionConstructor>, after: map<TypeDesc, DefinitionConstructor>) {
    forall t :: t in before ==> t in after && after[t] == before[t]
  }

  lemma CacheGrowsTransitive(a: map<TypeDesc, DefinitionConstructor>, b: map<TypeDesc, DefinitionConstructor>, c: map<TypeDesc, DefinitionConstructor>)
    requires CacheGrows(a, b) && CacheGrows(b, c)
    ensures CacheGrows(a, c)
  {
  }

  /** The static `_serviceDefinitionConstructorDelegates` dictionary and the method that fills it. */
  class DefinitionFactory {
    /** the entry assembly's name, which every definition instance picks up */
    const assemblyName: string
    var constructors: map<TypeDesc, DefinitionConstructor>

    /** Only constructors of cacheable types are cached, each under the type it builds. */
    ghost predicate Valid()
      reads this
    {
      forall t :: t in constructors ==> constructors[t] == DefinitionConstructor(t) && Cacheable(t)
    }

    constructor (assemblyName: string)
      ensures Valid() && this.assemblyName == assemblyName && constructors == map[]
    {
      this.assemblyName := assemblyName;
      constructors := map[];
    }

    /**
     * Rejects a type that is not an IMicroServiceDefinition before looking at the
     * cache; rejects an uncached type without a parameterless constructor without
     * touching the cache; otherwise caches the constructor (never overwriting) and
     * runs it: a constructor that throws leaves its entry cached; one that returns
     * gives a new definition of exactly that type.
     */
    method CreateMicroServiceDefinition(t: TypeDesc) returns (r: Result<MicroServiceDefinition, Error>)
      requires Valid()
      modifies this
      ensures Valid()
      ensures !ImplementsDefinition(t) ==> r == Failure(NotADefinition(t.fullName)) && constructors == old(constructors)
      ensures ImplementsDefinition(t) && !t.hasDefaultCtor ==>
                r == Failure(NoDefaultConstructor(t.fullName)) && constructors == old(constructors)
      ensures Cacheable(t) ==> constructors == old(constructors)[t := DefinitionConstructor(t)]
      ensures Cacheable(t) && t.ctorThrows ==> r == Failure(DefinitionConstructorFailed(t.fullName))
      ensures CacheGrows(old(constructors), constructors)
      ensures r.Success? <==> Creatable(t)
      ensures r.Success? ==> fresh(r.value) && r.value.Valid()
      ensures r.Success? ==> r.value.typ == t && r.value.assemblyName == assemblyName
      ensures r.Success? ==> r.value.pool == Default && r.value.routingKey == None
    {
      if !ImplementsDefinition(t) {
        return Failure(NotADefinition(t.fullName));
      }
      var ctor;
      if t in constructors {
        ctor := constructors[t];
      } else {
        if !t.hasDefaultCtor {
          return Failure(NoDefaultConstructor(t.fullName));
        }
        ctor := DefinitionConstructor(t);
        constructors := constructors[t := ctor];
      }
      if ctor.builds.ctorThrows {
        return Failure(DefinitionConstructorFailed(ctor.builds.fullName));
      }
      var d := new MicroServiceDefinition(ctor.builds, assemblyName);
      r := Success(d);
    }
  }

  class ConsumerMethodAttribute {
    const serviceDefinition: MicroServiceDefinition

    constructor (serviceDefinition: MicroServiceDefinition)
      ensures this.serviceDefinition == serviceDefinition
    {
      this.serviceDefinition := serviceDefinition;
    }

    /** Two lines, `ExchangeName: {x}` and `RoutingKey: {y}`; reading the key may memoise it, or throw. */
    method ToString() returns (r: Result<string, Error>)
      requires serviceDefinition.Valid()
      modifies serviceDefinition`routingKey
      ensures serviceDefinition.Valid()
      ensures var d := serviceDefinition; DeriveRoutingKey(d.typ, d.pool).Success? ==>
                r == Success("ExchangeName: " + d.ExchangeName() + "\nRoutingKey: " + DeriveRoutingKey(d.typ, d.pool).value)
      ensures var d := serviceDefinition; DeriveRoutingKey(d.typ, d.pool).Failure? ==>
                r == Failure(DeriveRoutingKey(d.typ, d.pool).error)
      ensures serviceDefinition.routingKey == KeyAfterRead(serviceDefinition.typ, serviceDefinition.pool)
    {
      var key, _ := serviceDefinition.RoutingKey();
      match key
      case Success(k) => r := Success("ExchangeName: " + serviceDefinition.ExchangeName() + "\nRoutingKey: " + k);
      case Failure(e) => r := Failure(e);
    }
  }

  /** `new ConsumerMethodAttribute(t)`: the constructor throws exactly when the definition cannot be created. */
  method NewConsumerMethodAttribute(factory: DefinitionFactory, t: TypeDesc) returns (r: Result<ConsumerMethodAttribute, Error>)
    requires factory.Valid()
    modifies factory
    ensures factory.Valid() && CacheGrows(old(factory.constructors), factory.constructors)
    ensures r.Success? <==> Creatable(t)
    ensures r.Success? ==> t in factory.constructors
    ensures Cacheable(t) ==> factory.constructors == old(factory.constructors)[t := DefinitionConstructor(t)]
    ensures !Cacheable(t) ==> factory.constructors == old(factory.constructors)
    ensures r.Failure? && Cacheable(t) ==> r.error == DefinitionConstructorFailed(t.fullName)
    ensures r.Success? ==> fresh(r.value) && fresh(r.value.serviceDefinition)
    ensures r.Success? ==> r.value.serviceDefinition.typ == t && r.value.serviceDefinition.Valid()
  {
    var d := factory.CreateMicroServiceDefinition(t);
    match d
    case Success(def) =>
      var a := new ConsumerMethodAttribute(def);
      r := Success(a);
    case Failure(e) => r := Failure(e);
  }

  /** Two attributes naming the same type get two distinct definitions, so they share no pool or key. */
  method SameTypeDistinctDefinitions(factory: DefinitionFactory, t: TypeDesc)
    returns (a: MicroServiceDefinition, b: MicroServiceDefinition)
    requires factory.Valid() && Creatable(t)
    modifies factory
    ensures factory.Valid()
    ensures a != b && a.typ == b.typ == t
  {
    var ra := factory.CreateMicroServiceDefinition(t);
    var rb := factory.CreateMicroServiceDefinition(t);
    a, b := ra.value, rb.value;
  }

  /**
   * A rejected type is rejected again on every retry, with the same error. A type rejected
   * before TryAdd leaves the cache unchanged; one whose constructor throws stays cached.
   */
  method RetryFailsAlike(factory: DefinitionFactory, t: TypeDesc)
    returns (first: Result<MicroServiceDefinition, Error>, second: Result<MicroServiceDefinition, Error>)
    requires factory.Valid() && !Creatable(t)
    modifies factory
    ensures factory.Valid()
    ensures !Cacheable(t) ==> factory.constructors == old(factory.constructors)
    ensures Cacheable(t) ==> factory.constructors == old(factory.constructors)[t := DefinitionConstructor(t)]
    ensures first.Failure? && first == second
  {
    first := factory.CreateMicroServiceDefinition(t);
    second := factory.CreateMicroServiceDefinition(t);
  }
}
