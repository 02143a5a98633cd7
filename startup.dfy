/**
 * StartupExtensions: discovery of handler methods, their validation and binding
 * into callbacks, and the construction of one consumer per handler.
 */
module Startup {
  import opened Wrappers
  import opened Text
  import opened Reflection
  import opened Definitions
  import opened ConsumerAttributes

  /** Full names of what a Func<...> delegate type derives from and implements. */
  const DelegateSupertypes: set<string> :=
    {DelegateName, "System.MulticastDelegate", "System.ICloneable",
     "System.Runtime.Serialization.ISerializable", ObjectName}

  /** The delegate bound to a handler: Func<T, Task>, or Func<object, T, Task> for a handler that also takes the envelope. */
  datatype Callback = Func1(handler: MethodDesc, input: TypeDesc) | Func2(handler: MethodDesc, input: TypeDesc)
  {
    /** `action.Method.GetParameters().Length > 1`, as every consumer computes it */
    predicate TwoParam() {
      |handler.parameters| > 1
    }

    /** The callback is the one that CreateFuncFromMethodInfo builds from its own method. */
    predicate Bound() {
      CreateFuncFromMethodInfo(handler) == Success(this)
    }

    /** `action.Method.GetParameters()[_twoParam ? 1 : 0].ParameterType`: the consumers' decode target */
    function DecodeTarget(): TypeDesc
      requires Bound()
    {
      handler.parameters[if TwoParam() then 1 else 0]
    }

    /** The runtime type of the delegate object. */
    function RuntimeType(): TypeDesc {
      match this
      case Func1(_, t) => TypeDesc("System.Func`2[" + t.fullName + "," + TaskName + "]", "System", DelegateSupertypes, false, false, "")
      case Func2(_, t) =>
        TypeDesc("System.Func`3[" + ObjectName + "," + t.fullName + "," + TaskName + "]", "System", DelegateSupertypes, false, false, "")
    }
  }

  function QualifiedName(m: MethodDesc): string {
    m.declaringType + "." + m.name
  }

  /** One parameter, the payload, or two, exactly `object` and then the payload. */
  predicate HandlerShape(m: MethodDesc) {
    |m.parameters| == 1 || (|m.parameters| == 2 && m.parameters[0].fullName == ObjectName)
  }

  /**
   * Validates a handler's shape: the return type is exactly Task (checked first),
   * and it takes either one parameter, the payload, or two, exactly `object` and
   * then the payload. The payload type is the last parameter. Binding the delegate
   * over the (non-null) handler instance fails for a static method, whose first
   * parameter the instance would then close over.
   */
  function CreateFuncFromMethodInfo(m: MethodDesc): (r: Result<Callback, Error>)
    ensures m.returnType.fullName != TaskName ==> r == Failure(HandlerMustReturnTask(QualifiedName(m)))
    ensures m.returnType.fullName == TaskName && !HandlerShape(m) ==> r == Failure(HandlerParameterShape(QualifiedName(m)))
    ensures m.returnType.fullName == TaskName && HandlerShape(m) && m.isStatic ==>
              r == Failure(StaticHandlerNotBindable(QualifiedName(m)))
    ensures r.Success? <==> m.returnType.fullName == TaskName && HandlerShape(m) && !m.isStatic
    ensures r.Success? ==> r.value.handler == m && r.value.input == m.parameters[|m.parameters| - 1]
    ensures r.Success? ==> (r.value.Func2? <==> |m.parameters| == 2)
  {
    if m.returnType.fullName != TaskName then Failure(HandlerMustReturnTask(QualifiedName(m)))
    else if |m.parameters| < 1 || |m.parameters| > 2 then Failure(HandlerParameterShape(QualifiedName(m)))
    else if |m.parameters| == 2 && m.parameters[0].fullName != ObjectName then Failure(HandlerParameterShape(QualifiedName(m)))
    else if m.isStatic then Failure(StaticHandlerNotBindable(QualifiedName(m)))
    else if |m.parameters| == 1 then Success(Func1(m, m.parameters[0]))
    else Success(Func2(m, m.parameters[1]))
  }

  /** The consumers' arity flag and decode target agree with the delegate the registration built. */
  lemma CallbackDecodeTarget(cb: Callback)
    requires cb.Bound()
    ensures cb.TwoParam() <==> cb.Func2?
    ensures cb.DecodeTarget() == cb.input
    ensures cb.Func2? ==> cb.handler.parameters[0].fullName == ObjectName
  {
  }

  /** A constructor accepts the arguments: same count, and each parameter type assignable from the argument's runtime type. */
  predicate Matches(ctor: CtorDesc, args: seq<TypeDesc>) {
    |ctor.parameters| == |args| && forall i :: 0 <= i < |args| ==> Assignable(args[i], ctor.parameters[i])
  }

  method IsMatchingConstructor(ctor: CtorDesc, args: seq<TypeDesc>) returns (b: bool)
    ensures b <==> Matches(ctor, args)
  {
    if |ctor.parameters| != |args| {
      return false;
    }
    for i := 0 to |ctor.parameters|
      invariant forall j :: 0 <= j < i ==> Assignable(args[j], ctor.parameters[j])
    {
      if !Assignable(args[i], ctor.parameters[i]) {
        return false;
      }
    }
    return true;
  }

  /** `FirstOrDefault(IsMatchingConstructor)` over the constructors from index `from` on, in the order reflection returns them. */
  function FirstMatch(ctors: seq<CtorDesc>, args: seq<TypeDesc>, from: nat): (r: Option<nat>)
    requires from <= |ctors|
    ensures r.Some? ==> from <= r.value < |ctors| && Matches(ctors[r.value], args)
    ensures forall j :: from <= j < (if r.Some? then r.value else |ctors|) ==> !Matches(ctors[j], args)
    decreases |ctors| - from
  {
    if from == |ctors| then None
    else if Matches(ctors[from], args) then Some(from)
    else FirstMatch(ctors, args, from + 1)
  }

  /** The `FirstOrDefault` search as a loop over the constructors, in the order reflection returns them. */
  method FindConstructor(ctors: seq<CtorDesc>, args: seq<TypeDesc>) returns (r: Option<nat>)
    ensures r == FirstMatch(ctors, args, 0)
  {
    var i := 0;
    while i < |ctors|
      invariant i <= |ctors|
      invariant FirstMatch(ctors, args, i) == FirstMatch(ctors, args, 0)
    {
      var b := IsMatchingConstructor(ctors[i], args);
      if b {
        return Some(i);
      }
      i := i + 1;
    }
    return None;
  }

  /**
   * A type of a loaded assembly, with the methods GetMethods returns for it, in the order it
   * returns them. The scan does not ask for DeclaredOnly, so the public and protected instance
   * methods a type inherits are listed for it as well as for the base type that declares them.
   */
  datatype TypeInfo = TypeInfo(desc: TypeDesc, methods: seq<MethodDesc>)

  /** A loaded assembly; Assembly.FullName may be null. */
  datatype Assembly = Assembly(fullName: Option<string>, types: seq<TypeInfo>)

  /** Assemblies whose name is known and starts with neither "System" nor "Microsoft" are scanned. */
  predicate Scanned(a: Assembly) {
    a.fullName.Some? && !StartsWith(a.fullName.value, "System") && !StartsWith(a.fullName.value, "Microsoft")
  }

  predicate IsConsumerMethod(m: MethodDesc) {
    |m.consumerAttributes| != 0
  }

  /** The methods of one type that carry a ConsumerMethod attribute, kept in the order GetMethods returns them. */
  function ConsumerMethodsOf(ms: seq<MethodDesc>): (r: seq<MethodDesc>)
    ensures forall m :: m in r <==> m in ms && IsConsumerMethod(m)
  {
    if ms == [] then []
    else (if IsConsumerMethod(ms[0]) then [ms[0]] else []) + ConsumerMethodsOf(ms[1..])
  }

  /**
   * Filtering keeps each attributed method as often as GetMethods lists it: a handler that a
   * subclass inherits is listed again for the subclass, and is registered once more.
   */
  lemma {:induction false} ConsumerMethodsOfCounts(ms: seq<MethodDesc>)
    ensures forall m :: multiset(ConsumerMethodsOf(ms))[m] == if IsConsumerMethod(m) then multiset(ms)[m] else 0
  {
    if ms != [] {
      assert ms == [ms[0]] + ms[1..];
      ConsumerMethodsOfCounts(ms[1..]);
    }
  }

  function ConsumerMethodsOfTypes(ts: seq<TypeInfo>): (r: seq<MethodDesc>)
    ensures forall m :: m in r <==> IsConsumerMethod(m) && exists t :: t in ts && m in t.methods
  {
    if ts == [] then []
    else ConsumerMethodsOf(ts[0].methods) + ConsumerMethodsOfTypes(ts[1..])
  }

  /** Filtering a concatenation filters each part, keeping the parts' order. */
  lemma {:induction false} ConsumerMethodsOfAppend(a: seq<MethodDesc>, b: seq<MethodDesc>)
    ensures ConsumerMethodsOf(a + b) == ConsumerMethodsOf(a) + ConsumerMethodsOf(b)
  {
    if a != [] {
      var head := if IsConsumerMethod(a[0]) then [a[0]] else [];
      assert (a + b)[0] == a[0] && (a + b)[1..] == a[1..] + b;
      assert ConsumerMethodsOf(a + b) == head + ConsumerMethodsOf(a[1..] + b);
      ConsumerMethodsOfAppend(a[1..], b);
      assert ConsumerMethodsOf(a) == head + ConsumerMethodsOf(a[1..]);
    } else {
      assert a + b == b;
    }
  }

  /** The attributed methods of a sequence of types come type by type, in the order of the types. */
  lemma {:induction false} ConsumerMethodsOfTypesAppend(a: seq<TypeInfo>, b: seq<TypeInfo>)
    ensures ConsumerMethodsOfTypes(a + b) == ConsumerMethodsOfTypes(a) + ConsumerMethodsOfTypes(b)
  {
    if a != [] {
      assert (a + b)[0] == a[0] && (a + b)[1..] == a[1..] + b;
      ConsumerMethodsOfTypesAppend(a[1..], b);
    } else {
      assert a + b == b;
    }
  }

  /** The attributed methods of two types: the first type's, then the second's. */
  lemma ConsumerMethodsOfTwoTypes(x: TypeInfo, y: TypeInfo)
    ensures ConsumerMethodsOfTypes([x, y]) == ConsumerMethodsOf(x.methods) + ConsumerMethodsOf(y.methods)
  {
    assert [x, y][0] == x && [x, y][1..] == [y];
    assert ConsumerMethodsOfTypes([x, y]) == ConsumerMethodsOf(x.methods) + ConsumerMethodsOfTypes([y]);
    assert [y][0] == y && [y][1..] == [];
    assert ConsumerMethodsOfTypes([y]) == ConsumerMethodsOf(y.methods) + [];
  }

  /** A handler declared on a base type and inherited by a subtype is found once for each of them. */
  lemma InheritedHandlerListedTwice(base: TypeInfo, sub: TypeInfo, m: MethodDesc)
    requires IsConsumerMethod(m) && m in base.methods && m in sub.methods
    ensures multiset(ConsumerMethodsOfTypes([base, sub]))[m] >= 2
  {
    ConsumerMethodsOfCounts(base.methods);
    ConsumerMethodsOfCounts(sub.methods);
    var a, b := ConsumerMethodsOf(base.methods), ConsumerMethodsOf(sub.methods);
    assert multiset(a)[m] >= 1 && multiset(b)[m] >= 1;
    ConsumerMethodsOfTwoTypes(base, sub);
    assert multiset(a + b) == multiset(a) + multiset(b);
  }

  /** The methods carrying a ConsumerMethod attribute, over all types of all scanned assemblies, in load order. */
  function ConsumerMethods(asms: seq<Assembly>): (r: seq<MethodDesc>)
    ensures forall m :: m in r <==>
              IsConsumerMethod(m) && exists a, t :: a in asms && Scanned(a) && t in a.types && m in t.methods
  {
    if asms == [] then []
    else (if Scanned(asms[0]) then ConsumerMethodsOfTypes(asms[0].types) else []) + ConsumerMethods(asms[1..])
  }

  /** The scan covers the assemblies one after another, in load order. */
  lemma {:induction false} ConsumerMethodsAppend(a: seq<Assembly>, b: seq<Assembly>)
    ensures ConsumerMethods(a + b) == ConsumerMethods(a) + ConsumerMethods(b)
  {
    if a != [] {
      assert (a + b)[0] == a[0] && (a + b)[1..] == a[1..] + b;
      ConsumerMethodsAppend(a[1..], b);
    } else {
      assert a + b == b;
    }
  }

  /**
   * The consumer service type's public constructors, in the order reflection
   * returns them; the runtime types of `logger` and `builder.Configuration`; and
   * the declaring types the service provider can build (registered during the
   * scan, neither static nor abstract, with every dependency registered).
   */
  datatype Env = Env(ctors: seq<CtorDesc>, loggerType: TypeDesc, configType: TypeDesc, resolvable: set<string>)

  /** `provider.GetRequiredService(method.DeclaringType)` returns the handler instance instead of throwing. */
  predicate Resolves(env: Env, m: MethodDesc) {
    m.declaringType in env.resolvable
  }

  /** The first method from index `from` on whose declaring type cannot be resolved, or `|methods|` if there is none. */
  function FirstUnresolved(methods: seq<MethodDesc>, env: Env, from: nat): (r: nat)
    requires from <= |methods|
    ensures from <= r <= |methods|
    ensures forall j :: from <= j < r ==> Resolves(env, methods[j])
    ensures r < |methods| ==> !Resolves(env, methods[r])
    decreases |methods| - from
  {
    if from == |methods| || !Resolves(env, methods[from]) then from else FirstUnresolved(methods, env, from + 1)
  }

  /** An index with every method before it resolved, and itself unresolved or the end, is the first unresolved one. */
  lemma {:induction false} FirstUnresolvedAt(methods: seq<MethodDesc>, env: Env, from: nat, k: nat)
    requires from <= k <= |methods|
    requires forall j :: from <= j < k ==> Resolves(env, methods[j])
    requires k < |methods| ==> !Resolves(env, methods[k])
    ensures FirstUnresolved(methods, env, from) == k
    decreases k - from
  {
    if from < k {
      FirstUnresolvedAt(methods, env, from + 1, k);
    }
  }

  function Arguments(env: Env, definitionType: TypeDesc, cb: Callback): seq<TypeDesc> {
    [env.loggerType, env.configType, definitionType, cb.RuntimeType()]
  }

  /** What the registration loop does with one handler method. */
  datatype Outcome = Added(callback: Callback, ctorIndex: nat) | NoMatchingConstructor | Logged(error: Error)

  /**
   * One iteration of the loop: a bad handler shape or a throwing consumer
   * constructor is logged; no matching constructor adds nothing and logs
   * nothing; otherwise the first matching constructor builds the consumer.
   * `constructs` tells whether that constructor returns normally.
   */
  function BindOutcome(m: MethodDesc, env: Env, constructs: bool): Outcome
    requires IsConsumerMethod(m)
  {
    match CreateFuncFromMethodInfo(m)
    case Failure(e) => Logged(e)
    case Success(cb) =>
      match FirstMatch(env.ctors, Arguments(env, m.consumerAttributes[0], cb), 0)
      case None => NoMatchingConstructor
      case Some(i) => if constructs then Added(cb, i) else Logged(ConsumerConstructionFailed)
  }
  /** What each outcome of one iteration means about the handler, the constructors and `constructs`. */
  lemma BindOutcomeSpec(m: MethodDesc, env: Env, constructs: bool)
    requires IsConsumerMethod(m)
    ensures var r := BindOutcome(m, env, constructs);
            CreateFuncFromMethodInfo(m).Failure? ==> r == Logged(CreateFuncFromMethodInfo(m).error)
    ensures var r := BindOutcome(m, env, constructs);
            r.Added? ==>
              constructs && r.callback.Bound() && r.callback.handler == m && r.ctorIndex < |env.ctors| &&
              Matches(env.ctors[r.ctorIndex], Arguments(env, m.consumerAttributes[0], r.callback)) &&
              forall j :: 0 <= j < r.ctorIndex ==> !Matches(env.ctors[j], Arguments(env, m.consumerAttributes[0], r.callback))
    ensures var r := BindOutcome(m, env, constructs);
            r.NoMatchingConstructor? ==>
              CreateFuncFromMethodInfo(m).Success? &&
              forall j :: 0 <= j < |env.ctors| ==> !Matches(env.ctors[j], Arguments(env, m.consumerAttributes[0], CreateFuncFromMethodInfo(m).value))
    ensures var r := BindOutcome(m, env, constructs);
            r.Logged? ==> CreateFuncFromMethodInfo(m).Failure? || !constructs
    ensures CreateFuncFromMethodInfo(m).Success? && !constructs ==> !BindOutcome(m, env, constructs).Added?
  {
  }

  /** Whichever Func type CreateDelegate builds, the delegate object can be passed as a System.Delegate. */
  lemma CallbackIsDelegate(cb: Callback)
    ensures Assignable(cb.RuntimeType(), DelegateType)
    ensures Assignable(cb.RuntimeType(), TypeDesc("System.MulticastDelegate", "System", {ObjectName}, false, false, ""))
  {
  }

  /**
   * The adapters' constructor shape `(ILogger<T>, IConfiguration, IMicroServiceDefinition, Delegate)`
   * accepts the registration's arguments for any bound handler and any definition type, once the
   * logger and the configuration the host supplies fit the first two parameters.
   */
  lemma AdapterConstructorMatches(ctor: CtorDesc, env: Env, definitionType: TypeDesc, cb: Callback)
    requires |ctor.parameters| == 4
    requires Assignable(env.loggerType, ctor.parameters[0]) && Assignable(env.configType, ctor.parameters[1])
    requires ctor.parameters[2] == DefinitionInterface && ctor.parameters[3] == DelegateType
    requires ImplementsDefinition(definitionType)
    ensures Matches(ctor, Arguments(env, definitionType, cb))
  {
    var args := Arguments(env, definitionType, cb);
    CallbackIsDelegate(cb);
    forall i | 0 <= i < |args|
      ensures Assignable(args[i], ctor.parameters[i])
    {
    }
  }

  /**
   * A consumer service type that has an adapter-shaped constructor at index `k` never leaves a
   * well-formed handler unbound: the handler gets a consumer built by the constructor at `k` or an
   * earlier one, or the construction's failure is logged.
   */
  lemma {:induction false} AdapterConstructorFound(m: MethodDesc, env: Env, constructs: bool, k: nat)
    requires IsConsumerMethod(m) && ImplementsDefinition(m.consumerAttributes[0])
    requires k < |env.ctors| && |env.ctors[k].parameters| == 4
    requires Assignable(env.loggerType, env.ctors[k].parameters[0]) && Assignable(env.configType, env.ctors[k].parameters[1])
    requires env.ctors[k].parameters[2] == DefinitionInterface && env.ctors[k].parameters[3] == DelegateType
    requires CreateFuncFromMethodInfo(m).Success?
    ensures !BindOutcome(m, env, constructs).NoMatchingConstructor?
    ensures constructs ==> BindOutcome(m, env, constructs).Added? && BindOutcome(m, env, constructs).ctorIndex <= k
    ensures !constructs ==> BindOutcome(m, env, constructs) == Logged(ConsumerConstructionFailed)
  {
    var cb := CreateFuncFromMethodInfo(m).value;
    AdapterConstructorMatches(env.ctors[k], env, m.consumerAttributes[0], cb);
    var found := FirstMatch(env.ctors, Arguments(env, m.consumerAttributes[0], cb), 0);
    assert found.Some? && found.value <= k;
  }

  /** A consumer the loop is to add: for which method, with which callback, constructor and definition type. */
  datatype Planned = Planned(source: nat, callback: Callback, ctorIndex: nat, definitionType: TypeDesc)

  ghost predicate Registrable(methods: seq<MethodDesc>, constructs: seq<bool>) {
    |constructs| == |methods| && forall i :: 0 <= i < |methods| ==> IsConsumerMethod(methods[i])
  }

  /** The consumer iteration `i` adds, if any. */
  ghost function Step(methods: seq<MethodDesc>, env: Env, constructs: seq<bool>, i: nat): (r: seq<Planned>)
    requires Registrable(methods, constructs) && i < |methods|
    ensures |r| <= 1
    ensures r != [] <==> BindOutcome(methods[i], env, constructs[i]).Added?
    ensures r != [] ==> r[0].source == i && r[0].definitionType == methods[i].consumerAttributes[0] &&
                        BindOutcome(methods[i], env, constructs[i]) == Added(r[0].callback, r[0].ctorIndex)
  {
    match BindOutcome(methods[i], env, constructs[i])
    case Added(cb, k) => [Planned(i, cb, k, methods[i].consumerAttributes[0])]
    case _ => []
  }

  /** The consumers added by the first `n` iterations, in order. */
  ghost function Plan(methods: seq<MethodDesc>, env: Env, constructs: seq<bool>, n: nat): seq<Planned>
    requires Registrable(methods, constructs) && n <= |methods|
  {
    if n == 0 then [] else Plan(methods, env, constructs, n - 1) + Step(methods, env, constructs, n - 1)
  }

  /** The methods the first `n` iterations log an error for, in order. */
  ghost function LoggedIndices(methods: seq<MethodDesc>, env: Env, constructs: seq<bool>, n: nat): seq<nat>
    requires Registrable(methods, constructs) && n <= |methods|
  {
    if n == 0 then []
    else LoggedIndices(methods, env, constructs, n - 1) +
         if BindOutcome(methods[n - 1], env, constructs[n - 1]).Logged? then [n - 1] else []
  }

  /** A prefix of registrable methods is registrable, with the same methods at the same indices. */
  lemma PrefixRegistrable(methods: seq<MethodDesc>, constructs: seq<bool>, n: nat)
    requires Registrable(methods, constructs) && n <= |methods|
    ensures Registrable(methods[..n], constructs[..n])
    ensures forall i :: 0 <= i < n ==> methods[..n][i] == methods[i] && constructs[..n][i] == constructs[i]
  {
  }

  /** The first `k` iterations over a prefix of the methods plan what they plan over all of them. */
  lemma {:induction false} PlanOfPrefix(methods: seq<MethodDesc>, env: Env, constructs: seq<bool>, n: nat, k: nat)
    requires Registrable(methods, constructs) && k <= n <= |methods|
    ensures Registrable(methods[..n], constructs[..n])
    ensures Plan(methods[..n], env, constructs[..n], k) == Plan(methods, env, constructs, k)
    decreases k
  {
    PrefixRegistrable(methods, constructs, n);
    if k > 0 {
      PlanOfPrefix(methods, env, constructs, n, k - 1);
      assert methods[..n][k - 1] == methods[k - 1] && constructs[..n][k - 1] == constructs[k - 1];
    }
  }

  /** The first `k` iterations over a prefix of the methods log what they log over all of them. */
  lemma {:induction false} LoggedOfPrefix(methods: seq<MethodDesc>, env: Env, constructs: seq<bool>, n: nat, k: nat)
    requires Registrable(methods, constructs) && k <= n <= |methods|
    ensures Registrable(methods[..n], constructs[..n])
    ensures LoggedIndices(methods[..n], env, constructs[..n], k) == LoggedIndices(methods, env, constructs, k)
    decreases k
  {
    PrefixRegistrable(methods, constructs, n);
    if k > 0 {
      LoggedOfPrefix(methods, env, constructs, n, k - 1);
      assert methods[..n][k - 1] == methods[k - 1] && constructs[..n][k - 1] == constructs[k - 1];
    }
  }

  /** Consumers added earlier remain, whatever the later iterations do. */
  lemma {:induction false} PlanGrowsOnly(methods: seq<MethodDesc>, env: Env, constructs: seq<bool>, n: nat, n': nat)
    requires Registrable(methods, constructs) && n <= n' <= |methods|
    ensures Plan(methods, env, constructs, n) <= Plan(methods, env, constructs, n')
    decreases n'
  {
    if n < n' {
      PlanGrowsOnly(methods, env, constructs, n, n' - 1);
    }
  }

  /** The entries come from methods below `n`, in strictly increasing method order. */
  predicate SourcesIncreasing(plan: seq<Planned>, n: nat) {
    (forall k :: 0 <= k < |plan| ==> plan[k].source < n) &&
    (forall k, k' :: 0 <= k < k' < |plan| ==> plan[k].source < plan[k'].source)
  }

  /** Each entry records the Added outcome of its method and that method's definition type. */
  ghost predicate EntriesAdded(plan: seq<Planned>, methods: seq<MethodDesc>, env: Env, constructs: seq<bool>)
    requires Registrable(methods, constructs)
  {
    forall k :: 0 <= k < |plan| ==>
      plan[k].source < |methods| &&
      BindOutcome(methods[plan[k].source], env, constructs[plan[k].source]) == Added(plan[k].callback, plan[k].ctorIndex) &&
      plan[k].definitionType == methods[plan[k].source].consumerAttributes[0]
  }

  /** The consumers the loop adds come one per method, in method order. */
  lemma {:induction false} PlanSourcesIncreasing(methods: seq<MethodDesc>, env: Env, constructs: seq<bool>, n: nat)
    requires Registrable(methods, constructs) && n <= |methods|
    ensures SourcesIncreasing(Plan(methods, env, constructs, n), n)
    decreases n
  {
    if n > 0 {
      PlanSourcesIncreasing(methods, env, constructs, n - 1);
      var prev := Plan(methods, env, constructs, n - 1);
      var step := Step(methods, env, constructs, n - 1);
      var plan := Plan(methods, env, constructs, n);
      assert plan == prev + step;
      forall k | 0 <= k < |plan|
        ensures plan[k].source < n
      {
        if k < |prev| {
          assert plan[k] == prev[k];
        }
      }
      forall k, k' | 0 <= k < k' < |plan|
        ensures plan[k].source < plan[k'].source
      {
        assert plan[k] == prev[k];
        if k' < |prev| {
          assert plan[k'] == prev[k'];
        }
      }
    }
  }

  /** Each consumer the loop adds comes from a method with an Added outcome, with that outcome's callback and constructor. */
  lemma {:induction false} PlanEntriesAreAdded(methods: seq<MethodDesc>, env: Env, constructs: seq<bool>, n: nat)
    requires Registrable(methods, constructs) && n <= |methods|
    ensures EntriesAdded(Plan(methods, env, constructs, n), methods, env, constructs)
    decreases n
  {
    if n > 0 {
      PlanEntriesAreAdded(methods, env, constructs, n - 1);
      var prev := Plan(methods, env, constructs, n - 1);
      var step := Step(methods, env, constructs, n - 1);
      var plan := Plan(methods, env, constructs, n);
      assert plan == prev + step;
      forall k | 0 <= k < |plan|
        ensures plan[k] == (if k < |prev| then prev[k] else step[0])
      {
      }
    }
  }

  /** Some consumer in `plan` was built from method `i`. */
  ghost predicate Covered(plan: seq<Planned>, i: nat) {
    exists k :: 0 <= k < |plan| && plan[k].source == i
  }

  /** Every method with an Added outcome gets a consumer: a failing handler does not stop the loop from binding later ones. */
  lemma {:induction false} PlanCoversAdded(methods: seq<MethodDesc>, env: Env, constructs: seq<bool>, n: nat)
    requires Registrable(methods, constructs) && n <= |methods|
    ensures forall i :: 0 <= i < n && BindOutcome(methods[i], env, constructs[i]).Added? ==>
      Covered(Plan(methods, env, constructs, n), i)
    decreases n
  {
    if n > 0 {
      PlanCoversAdded(methods, env, constructs, n - 1);
      var prev := Plan(methods, env, constructs, n - 1);
      var step := Step(methods, env, constructs, n - 1);
      var plan := Plan(methods, env, constructs, n);
      assert plan == prev + step;
      forall i | 0 <= i < n && BindOutcome(methods[i], env, constructs[i]).Added?
        ensures Covered(plan, i)
      {
        if i < n - 1 {
          assert Covered(prev, i);
          var k :| 0 <= k < |prev| && prev[k].source == i;
          assert plan[k] == prev[k];
        } else {
          assert plan[|prev|] == step[0];
        }
      }
    }
  }

  /** Exactly the methods with a Logged outcome are logged; a method with no matching constructor is not. */
  lemma {:induction false} LoggedExactlyTheFailures(methods: seq<MethodDesc>, env: Env, constructs: seq<bool>, n: nat)
    requires Registrable(methods, constructs) && n <= |methods|
    ensures forall i :: i in LoggedIndices(methods, env, constructs, n) <==>
              0 <= i < n && BindOutcome(methods[i], env, constructs[i]).Logged?
    decreases n
  {
    if n > 0 {
      LoggedExactlyTheFailures(methods, env, constructs, n - 1);
    }
  }

  /** A registered consumer: its definition instance, the bound callback and the constructor used. */
  datatype RegisteredConsumer = RegisteredConsumer(definition: MicroServiceDefinition, callback: Callback, ctorIndex: nat)

  predicate Realises(c: RegisteredConsumer, p: Planned) {
    c.callback == p.callback && c.ctorIndex == p.ctorIndex && c.definition.typ == p.definitionType
  }

  /** The registered consumers are the planned ones, one for one and in order. */
  predicate RealisesAll(consumers: seq<RegisteredConsumer>, plan: seq<Planned>) {
    |consumers| == |plan| && forall k :: 0 <= k < |consumers| ==> Realises(consumers[k], plan[k])
  }

  lemma RealisesAllAppend(consumers: seq<RegisteredConsumer>, plan: seq<Planned>, c: RegisteredConsumer, p: Planned)
    requires RealisesAll(consumers, plan) && Realises(c, p)
    ensures RealisesAll(consumers + [c], plan + [p])
  {
  }

  /**
   * One iteration of the loop (lines 50-65) for a method whose declaring type is
   * resolved and whose first attribute is creatable: the attribute's definition is
   * built (caching its constructor), then the callback and the consumer.
   */
  method BindConsumer(factory: DefinitionFactory, methods: seq<MethodDesc>, env: Env, constructs: seq<bool>, i: nat)
    returns (added: Option<RegisteredConsumer>, logs: bool)
    requires factory.Valid() && Registrable(methods, constructs) && i < |methods|
    requires Creatable(methods[i].consumerAttributes[0])
    modifies factory
    ensures factory.Valid() && CacheGrows(old(factory.constructors), factory.constructors)
    ensures methods[i].consumerAttributes[0] in factory.constructors
    ensures LoggedIndices(methods, env, constructs, i + 1) ==
              LoggedIndices(methods, env, constructs, i) + if logs then [i] else []
    ensures Plan(methods, env, constructs, i + 1) ==
              Plan(methods, env, constructs, i) + Step(methods, env, constructs, i)
    ensures added.Some? <==> Step(methods, env, constructs, i) != []
    ensures added.Some? ==> Realises(added.value, Step(methods, env, constructs, i)[0]) && fresh(added.value.definition)
  {
    var m := methods[i];
    var constructs := constructs[i];
    var created := factory.CreateMicroServiceDefinition(m.consumerAttributes[0]);
    var definition := created.value;
    var func := CreateFuncFromMethodInfo(m);
    if func.Failure? {
      return None, true;
    }
    var ctor := FindConstructor(env.ctors, Arguments(env, definition.typ, func.value));
    if ctor.None? {
      return None, false;
    }
    if !constructs {
      return None, true;
    }
    return Some(RegisteredConsumer(definition, func.value, ctor.value)), false;
  }

  /**
   * The per-method loop of the hosted-service factory, over methods whose declaring
   * types all resolve. Every method's first attribute is creatable here, because
   * constructing all attributes during the scan already succeeded.
   */
  method RegisterConsumers(factory: DefinitionFactory, methods: seq<MethodDesc>, env: Env, constructs: seq<bool>)
    returns (consumers: seq<RegisteredConsumer>, logged: seq<nat>)
    requires factory.Valid() && Registrable(methods, constructs)
    requires forall i :: 0 <= i < |methods| ==> Creatable(methods[i].consumerAttributes[0])
    modifies factory
    ensures factory.Valid() && CacheGrows(old(factory.constructors), factory.constructors)
    ensures RealisesAll(consumers, Plan(methods, env, constructs, |methods|))
    ensures forall c :: c in consumers ==> fresh(c.definition)
    ensures logged == LoggedIndices(methods, env, constructs, |methods|)
  {
    consumers, logged := [], [];
    for i := 0 to |methods|
      invariant factory.Valid() && CacheGrows(old(factory.constructors), factory.constructors)
      invariant RealisesAll(consumers, Plan(methods, env, constructs, i))
      invariant forall c :: c in consumers ==> fresh(c.definition)
      invariant logged == LoggedIndices(methods, env, constructs, i)
    {
      ghost var plan := Plan(methods, env, constructs, i);
      ghost var before := factory.constructors;
      var added, logs := BindConsumer(factory, methods, env, constructs, i);
      CacheGrowsTransitive(old(factory.constructors), before, factory.constructors);
      if added.Some? {
        RealisesAllAppend(consumers, plan, added.value, Step(methods, env, constructs, i)[0]);
        assert Step(methods, env, constructs, i) == [Step(methods, env, constructs, i)[0]];
        consumers := consumers + [added.value];
      }
      if logs {
        logged := logged + [i];
      }
    }
  }

  /** Every attribute type of every method can be created. */
  predicate AttributesCreatable(methods: seq<MethodDesc>) {
    forall m, t :: m in methods && t in m.consumerAttributes ==> Creatable(t)
  }

  /**
   * Constructing every attribute of every consumer method, as the scan does; the
   * first failure propagates. On success every attribute type's constructor is cached.
   */
  method ConstructAttributes(factory: DefinitionFactory, methods: seq<MethodDesc>) returns (failure: Option<Error>)
    requires factory.Valid()
    modifies factory
    ensures factory.Valid() && CacheGrows(old(factory.constructors), factory.constructors)
    ensures failure.None? <==> AttributesCreatable(methods)
    ensures failure.None? ==> forall m, t :: m in methods && t in m.consumerAttributes ==> t in factory.constructors
  {
    for i := 0 to |methods|
      invariant factory.Valid() && CacheGrows(old(factory.constructors), factory.constructors)
      invariant forall k, t :: 0 <= k < i && t in methods[k].consumerAttributes ==> Creatable(t) && t in factory.constructors
    {
      var attrs := methods[i].consumerAttributes;
      for j := 0 to |attrs|
        invariant factory.Valid() && CacheGrows(old(factory.constructors), factory.constructors)
        invariant forall k, t :: 0 <= k < i && t in methods[k].consumerAttributes ==> t in factory.constructors
        invariant forall l :: 0 <= l < j ==> Creatable(attrs[l]) && attrs[l] in factory.constructors
      {
        ghost var before := factory.constructors;
        var d := factory.CreateMicroServiceDefinition(attrs[j]);
        CacheGrowsTransitive(old(factory.constructors), before, factory.constructors);
        if d.Failure? {
          assert methods[i] in methods && attrs[j] in methods[i].consumerAttributes;
          return Some(d.error);
        }
      }
    }
    return None;
  }

  /**
   * The hosted-service factory (lines 40-71). Resolving a handler's declaring type
   * happens outside the try block, so the first method whose type cannot be
   * resolved aborts the factory; the methods before it have been bound and logged.
   */
  method BuildHostedService(factory: DefinitionFactory, methods: seq<MethodDesc>, env: Env, constructs: seq<bool>)
    returns (r: Result<seq<RegisteredConsumer>, Error>, logged: seq<nat>)
    requires factory.Valid() && Registrable(methods, constructs)
    requires forall i :: 0 <= i < |methods| ==> Creatable(methods[i].consumerAttributes[0])
    modifies factory
    ensures factory.Valid() && CacheGrows(old(factory.constructors), factory.constructors)
    ensures logged == LoggedIndices(methods, env, constructs, FirstUnresolved(methods, env, 0))
    ensures r.Success? <==> FirstUnresolved(methods, env, 0) == |methods|
    ensures r.Failure? ==> r.error == ServiceNotResolvable(methods[FirstUnresolved(methods, env, 0)].declaringType)
    ensures r.Success? ==> RealisesAll(r.value, Plan(methods, env, constructs, |methods|))
    ensures r.Success? ==> forall c :: c in r.value ==> fresh(c.definition)
  {
    var n := FirstUnresolved(methods, env, 0);
    PlanOfPrefix(methods, env, constructs, n, n);
    LoggedOfPrefix(methods, env, constructs, n, n);
    assert forall i :: 0 <= i < n ==> methods[..n][i] == methods[i];
    var consumers;
    consumers, logged := RegisterConsumers(factory, methods[..n], env, constructs[..n]);
    if n < |methods| {
      return Failure(ServiceNotResolvable(methods[n].declaringType)), logged;
    }
    r := Success(consumers);
  }

  /**
   * AddPubSubClient: scan the methods and construct their attributes (an invalid
   * definition type aborts the whole call before anything is logged), then run
   * the hosted-service factory.
   */
  method AddPubSubClient(factory: DefinitionFactory, assemblies: seq<Assembly>, env: Env, constructs: seq<bool>)
    returns (r: Result<seq<RegisteredConsumer>, Error>, logged: seq<nat>)
    requires factory.Valid()
    requires |constructs| == |ConsumerMethods(assemblies)|
    modifies factory
    ensures factory.Valid() && CacheGrows(old(factory.constructors), factory.constructors)
    ensures r.Success? <==>
              AttributesCreatable(ConsumerMethods(assemblies)) &&
              FirstUnresolved(ConsumerMethods(assemblies), env, 0) == |ConsumerMethods(assemblies)|
    ensures !AttributesCreatable(ConsumerMethods(assemblies)) ==> r.Failure? && logged == []
    ensures AttributesCreatable(ConsumerMethods(assemblies)) ==>
              var methods := ConsumerMethods(assemblies);
              var n := FirstUnresolved(methods, env, 0);
              Registrable(methods, constructs) &&
              logged == LoggedIndices(methods, env, constructs, n) &&
              (n < |methods| ==> r == Failure(ServiceNotResolvable(methods[n].declaringType)))
    ensures r.Success? ==>
              var methods := ConsumerMethods(assemblies);
              Registrable(methods, constructs) &&
              RealisesAll(r.value, Plan(methods, env, constructs, |methods|))
  {
    var methods := ConsumerMethods(assemblies);
    var failure := ConstructAttributes(factory, methods);
    if failure.Some? {
      return Failure(failure.value), [];
    }
    ghost var before := factory.constructors;
    assert forall m :: m in methods ==> m.consumerAttributes[0] in m.consumerAttributes;
    r, logged := BuildHostedService(factory, methods, env, constructs);
    CacheGrowsTransitive(old(factory.constructors), before, factory.constructors);
  }
}
