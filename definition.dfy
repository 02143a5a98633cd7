/**
 * MicroServiceDefinitionBase: a message definition's routing identity. The routing
 * key is derived from the definition's runtime type and pool, memoised, and
 * invalidated when the pool changes; the queue name depends on the type and the
 * entry assembly only.
 */
module Definitions {
  import opened Wrappers
  import opened Text
  import opened Reflection

  /** ServicePool.Default and ServicePool.Background, as their underlying ints. */
  const Default: int := 0
  const Background: int := 1

  /** `key` with `.{pool}` appended when the pool is not Default. */
  function WithPoolSuffix(key: string, pool: int): (r: string)
    ensures pool == Default ==> r == key
    ensures pool != Default ==> |r| > |key| + 1 && r[..|key|] == key && r[|key|] == '.' && r[|key| + 1..] == IntToDecimal(pool)
  {
    if pool != Default then key + "." + IntToDecimal(pool) else key
  }

  /**
   * What the RoutingKey getter computes for a definition of runtime type `t` in
   * pool `pool`: FullName with every occurrence of Namespace removed, leading dots
   * stripped, and the pool suffix. A type in the global namespace makes Replace
   * throw, because its old value is then the empty string.
   */
  function DeriveRoutingKey(t: TypeDesc, pool: int): (r: Result<string, Error>)
    ensures r.Failure? <==> t.ns == ""
    ensures r.Failure? ==> r.error == ReplaceEmptyOldValue
    ensures r.Success? && pool == Default ==> r.value == [] || r.value[0] != '.'
    ensures r.Success? && pool == Default ==> |r.value| <= |t.fullName|
  {
    if t.ns == "" then Failure(ReplaceEmptyOldValue)
    else Success(WithPoolSuffix(StripLeadingDots(RemoveAll(t.fullName, t.ns)), pool))
  }

  /** The getter's `while (key.StartsWith('.')) key = key[1..]` loop. */
  method TrimLeadingDots(s: string) returns (key: string)
    ensures key == StripLeadingDots(s)
  {
    key := s;
    while |key| > 0 && key[0] == '.'
      invariant StripLeadingDots(key) == StripLeadingDots(s)
    {
      key := key[1..];
    }
  }

  /** The key a definition memoises once RoutingKey has been read: the derived key, or nothing when deriving throws. */
  function KeyAfterRead(t: TypeDesc, pool: int): Option<string> {
    var k := DeriveRoutingKey(t, pool);
    if k.Success? then Some(k.value) else None
  }

  /** `{FullName}-{assembly name}` */
  function QueueNameOf(fullName: string, assemblyName: string): (r: string)
    ensures |r| == |fullName| + 1 + |assemblyName|
    ensures r[..|fullName|] == fullName && r[|fullName|] == '-' && r[|fullName| + 1..] == assemblyName
  {
    fullName + "-" + assemblyName
  }

  /**
   * `{exchangeName}-{routingKey}-{entry assembly name}`: the Kafka topic and the
   * ActiveMQ queue a publisher addresses.
   */
  function BrokerAddress(exchangeName: string, routingKey: string, assemblyName: string): (r: string)
    ensures |r| == |exchangeName| + 1 + |routingKey| + 1 + |assemblyName|
    ensures r[..|exchangeName|] == exchangeName && r[|exchangeName|] == '-'
    ensures r[|exchangeName| + 1..|exchangeName| + 1 + |routingKey|] == routingKey && r[|exchangeName| + 1 + |routingKey|] == '-'
    ensures r[|r| - |assemblyName|..] == assemblyName
  {
    exchangeName + "-" + routingKey + "-" + assemblyName
  }

  /**
   * `{ExchangeName}-{FullName}-{entry assembly name}`: the Kafka topic and the
   * ActiveMQ queue a consumer of a definition type listens on. Neither the pool
   * nor the routing key takes part.
   */
  function DefinitionAddress(t: TypeDesc, assemblyName: string): (r: string)
    ensures r == t.exchangeName + "-" + QueueNameOf(t.fullName, assemblyName)
    ensures r[..|t.exchangeName|] == t.exchangeName && r[|r| - |assemblyName|..] == assemblyName
  {
    t.exchangeName + "-" + t.fullName + "-" + assemblyName
  }

  /** A publish through the definition overload, whose routing key is the full name, addresses the definition's consumers. */
  lemma DefinitionOverloadReachesConsumer(t: TypeDesc, assemblyName: string)
    ensures BrokerAddress(t.exchangeName, t.fullName, assemblyName) == DefinitionAddress(t, assemblyName)
  {
  }

  /** Addresses of different entry assemblies differ, so a consumer hosted by another entry assembly never receives them. */
  lemma {:induction false} DefinitionAddressDependsOnAssembly(t: TypeDesc, a1: string, a2: string)
    requires a1 != a2
    ensures DefinitionAddress(t, a1) != DefinitionAddress(t, a2)
  {
    var prefix := t.exchangeName + "-" + t.fullName + "-";
    assert DefinitionAddress(t, a1) == prefix + a1;
    assert DefinitionAddress(t, a2) == prefix + a2;
    assert (prefix + a1)[|prefix|..] == a1;
  }

  class MicroServiceDefinition {
    /** GetType(): the concrete definition type */
    const typ: TypeDesc
    /** the name of the entry assembly, as this instance's lazy field reads it */
    const assemblyName: string
    var pool: int
    /** the memoised routing key; None is the source's null */
    var routingKey: Option<string>

    /** A memoised key is the one the current pool derives. */
    ghost predicate Valid()
      reads this
    {
      routingKey.Some? ==> DeriveRoutingKey(typ, pool) == Success(routingKey.value)
    }

    /** A fresh instance is in the Default pool and has computed nothing yet. */
    constructor (typ: TypeDesc, assemblyName: string)
      ensures Valid()
      ensures this.typ == typ && this.assemblyName == assemblyName
      ensures pool == Default && routingKey == None
    {
      this.typ := typ;
      this.assemblyName := assemblyName;
      pool := Default;
      routingKey := None;
    }

    /** The abstract ExchangeName, fixed per definition type; it reads neither the pool nor the key. */
    function ExchangeName(): (r: string)
      ensures r == typ.exchangeName
    {
      typ.exchangeName
    }

    /** Reads neither the pool nor the memoised key: the type's full name, a '-', and the assembly name. */
    function QueueName(): (r: string)
      ensures |r| == |typ.fullName| + 1 + |assemblyName|
      ensures r[..|typ.fullName|] == typ.fullName && r[|typ.fullName| + 1..] == assemblyName
    {
      QueueNameOf(typ.fullName, assemblyName)
    }

    /** The Pool setter: a change of pool drops the memoised key; setting the same pool changes nothing. */
    method SetPool(value: int)
      requires Valid()
      modifies this
      ensures Valid()
      ensures pool == value
      ensures old(pool) == value ==> routingKey == old(routingKey)
      ensures old(pool) != value ==> routingKey == None
    {
      if pool != value {
        routingKey := None;
        pool := value;
      }
    }

    /**
     * The RoutingKey getter. `recomputed` tells whether the derivation ran: it runs
     * exactly when nothing was memoised, and a successful run memoises its result.
     */
    method RoutingKey() returns (r: Result<string, Error>, recomputed: bool)
      requires Valid()
      modifies this`routingKey
      ensures Valid()
      ensures r == DeriveRoutingKey(typ, pool)
      ensures recomputed == old(routingKey).None?
      ensures routingKey == if r.Success? then Some(r.value) else None
    {
      if routingKey.Some? {
        r, recomputed := Success(routingKey.value), false;
      } else if typ.ns == "" {
        r, recomputed := Failure(ReplaceEmptyOldValue), true;
      } else {
        recomputed := true;
        var key := TrimLeadingDots(RemoveAll(typ.fullName, typ.ns));
        key := WithPoolSuffix(key, pool);
        routingKey := Some(key);
        r := Success(key);
      }
    }

    /** `{ExchangeName} | {RoutingKey}`; reading RoutingKey may memoise it, or throw. */
    method ToString() returns (r: Result<string, Error>)
      requires Valid()
      modifies this`routingKey
      ensures Valid()
      ensures DeriveRoutingKey(typ, pool).Success? ==>
                r == Success(ExchangeName() + " | " + DeriveRoutingKey(typ, pool).value)
      ensures DeriveRoutingKey(typ, pool).Failure? ==> r == Failure(DeriveRoutingKey(typ, pool).error)
      ensures routingKey == KeyAfterRead(typ, pool)
    {
      var key, _ := RoutingKey();
      match key
      case Success(k) => r := Success(ExchangeName() + " | " + k);
      case Failure(e) => r := Failure(e);
    }
  }

  /** Two reads with no pool change in between agree, and the second one does not recompute. */
  method RepeatedReadsAgree(d: MicroServiceDefinition) returns (first: Result<string, Error>, second: Result<string, Error>, secondRecomputed: bool)
    requires d.Valid()
    modifies d
    ensures d.Valid()
    ensures first == second
    ensures first.Success? ==> !secondRecomputed
  {
    var firstRecomputed;
    first, firstRecomputed := d.RoutingKey();
    second, secondRecomputed := d.RoutingKey();
  }

  /** After a pool change, the next read derives the key of the new pool. */
  method PoolChangeTakesEffect(d: MicroServiceDefinition, value: int) returns (r: Result<string, Error>)
    requires d.Valid()
    modifies d
    ensures d.Valid() && d.pool == value
    ensures r == DeriveRoutingKey(d.typ, value)
  {
    var before, beforeRecomputed := d.RoutingKey();
    d.SetPool(value);
    var recomputed;
    r, recomputed := d.RoutingKey();
    assert old(d.pool) != value ==> recomputed;
  }

  /** Distinct pools give distinct keys: the key changes if and only if the pool does. */
  lemma RoutingKeyPoolInjective(t: TypeDesc, p1: int, p2: int)
    requires t.ns != ""
    requires DeriveRoutingKey(t, p1) == DeriveRoutingKey(t, p2)
    ensures p1 == p2
  {
    var base := StripLeadingDots(RemoveAll(t.fullName, t.ns));
    if p1 != Default && p2 != Default {
      var k1, k2 := base + "." + IntToDecimal(p1), base + "." + IntToDecimal(p2);
      assert k1[|base| + 1..] == IntToDecimal(p1);
      assert k2[|base| + 1..] == IntToDecimal(p2);
      IntToDecimalInjective(p1, p2);
    }
  }

  /** A non-Default pool only appends `.{pool}` to the Default pool's key. */
  lemma RoutingKeyPoolSuffix(t: TypeDesc, pool: int)
    requires t.ns != "" && pool != Default
    ensures DeriveRoutingKey(t, pool).Success? && DeriveRoutingKey(t, Default).Success?
    ensures DeriveRoutingKey(t, pool).value == DeriveRoutingKey(t, Default).value + "." + IntToDecimal(pool)
  {
  }

  /** Before the pool suffix, the key never starts with '.'. */
  lemma RoutingKeyNoLeadingDot(t: TypeDesc)
    requires t.ns != ""
    ensures DeriveRoutingKey(t, Default).Success?
    ensures var k := DeriveRoutingKey(t, Default).value; k == [] || k[0] != '.'
  {
  }

  /**
   * For the usual type `{ns}.{name}`, whose name does not start with '.' and does
   * not contain its namespace again, the Default key is the bare type name
   * (including any '+' of a nested type).
   */
  lemma {:induction false} RoutingKeyOfNamespacedType(t: TypeDesc, name: string)
    requires t.ns != "" && t.fullName == t.ns + "." + name
    requires name == [] || name[0] != '.'
    requires !Occurs("." + name, t.ns)
    ensures DeriveRoutingKey(t, Default) == Success(name)
  {
    var tail := ['.'] + name;
    assert RemoveAll(t.fullName, t.ns) == tail by {
      assert t.fullName == t.ns + tail;
      RemoveAllDropsPrefix(t.ns, tail);
      RemoveAllNoOccurrence(tail, t.ns);
    }
    assert StripLeadingDots(tail) == name by {
      assert tail[1..] == name;
      StripLeadingDotsKeeps(name);
    }
  }

  lemma DashAfterTypeName(f: string, a: string)
    requires '-' !in f
    ensures forall i :: 0 <= i < |f| ==> QueueNameOf(f, a)[i] != '-'
    ensures QueueNameOf(f, a)[|f|] == '-'
  {
  }

  /** The queue name determines both the type and the assembly, since type names contain no '-'. */
  lemma QueueNameInjective(f1: string, a1: string, f2: string, a2: string)
    requires '-' !in f1 && '-' !in f2
    requires QueueNameOf(f1, a1) == QueueNameOf(f2, a2)
    ensures f1 == f2 && a1 == a2
  {
    var q := QueueNameOf(f1, a1);
    DashAfterTypeName(f1, a1);
    DashAfterTypeName(f2, a2);
    assert |f1| == |f2|;
    {
      assert f1 == q[..|f1|] == f2;
      assert a1 == q[|f1| + 1..] == a2;
    }
  }

  /** The test suite's TestDefinition: `PubSubClient.Tests.TestDefinition`, exchange "Test". */
  const TestDefinitionType := TypeDesc("PubSubClient.Tests.TestDefinition", "PubSubClient.Tests",
                                       {"PubSubClient.Tests.TestExchangeBaseDef", "PubSubClient.MicroServiceDefinitionBase",
                                        DefinitionInterfaceName, ObjectName}, true, false, "Test")

  /** Its key is the bare type name. */
  lemma TestDefinitionKey()
    ensures DeriveRoutingKey(TestDefinitionType, Default) == Success("TestDefinition")
  {
    var t := TestDefinitionType;
    assert t.fullName == t.ns + "." + "TestDefinition";
    assert |".TestDefinition"| < |t.ns|;
    RoutingKeyOfNamespacedType(t, "TestDefinition");
  }

  /** The Background pool appends `.1` to a derivable Default key. */
  lemma BackgroundKeyOf(t: TypeDesc, key: string)
    requires DeriveRoutingKey(t, Default) == Success(key)
    ensures DeriveRoutingKey(t, Background) == Success(key + ".1")
  {
    assert IntToDecimal(Background) == [DigitChar(1)] == ".1"[1..];
    assert key + "." + ".1"[1..] == key + ".1";
  }

  /** In the Background pool its key is `TestDefinition.1`. */
  lemma TestDefinitionBackgroundKey()
    ensures DeriveRoutingKey(TestDefinitionType, Background) == Success("TestDefinition.1")
  {
    TestDefinitionKey();
    BackgroundKeyOf(TestDefinitionType, "TestDefinition");
    assert "TestDefinition" + ".1" == "TestDefinition.1";
  }

  /**
   * Every occurrence of the namespace is removed, not only the prefix: a type
   * `N.N<rest>` (as `Foo.FooBar`) derives `<rest>` (`Bar`), not `N<rest>`.
   */
  lemma RoutingKeyRemovesEveryOccurrence(t: TypeDesc, rest: string)
    requires t.ns != "" && t.ns[0] != '.' && t.fullName == t.ns + "." + t.ns + rest
    requires rest == [] || rest[0] != '.'
    requires !Occurs(rest, t.ns)
    ensures DeriveRoutingKey(t, Default) == Success(rest)
  {
    var ns := t.ns;
    assert t.fullName == ns + (['.'] + (ns + rest));
    RemoveAllDropsPrefix(ns, ['.'] + (ns + rest));
    assert (['.'] + (ns + rest))[..|ns|][0] == '.';
    RemoveAllKeepsHead('.', ns + rest, ns);
    RemoveAllDropsPrefix(ns, rest);
    RemoveAllNoOccurrence(rest, ns);
    assert RemoveAll(t.fullName, ns) == ['.'] + rest;
    assert (['.'] + rest)[1..] == rest;
    StripLeadingDotsKeeps(rest);
  }

  /** A type named like its namespace, `A.A`, derives the empty key, and `.1` in the Background pool. */
  lemma RoutingKeyOfTypeNamedLikeNamespace()
    ensures DeriveRoutingKey(TypeDesc("A.A", "A", {DefinitionInterfaceName}, true, false, "X"), Default) == Success("")
    ensures DeriveRoutingKey(TypeDesc("A.A", "A", {DefinitionInterfaceName}, true, false, "X"), Background) == Success(".1")
  {
    assert "A.A" == "A" + ['.'] + "A" && "A" == "A" + "";
    RemoveAllDropsPrefix("A", ['.'] + "A");
    assert (['.'] + "A")[..1] == ['.'];
    RemoveAllKeepsHead('.', "A", "A");
    RemoveAllDropsPrefix("A", "");
    assert RemoveAll("A.A", "A") == ".";
    assert StripLeadingDots(".") == "";
    BackgroundKeyOf(TypeDesc("A.A", "A", {DefinitionInterfaceName}, true, false, "X"), "");
    assert "" + ".1" == ".1";
  }

  /** A type in the global namespace has no routing key: deriving it throws. */
  lemma GlobalNamespaceHasNoRoutingKey(t: TypeDesc, pool: int)
    requires t.ns == ""
    ensures DeriveRoutingKey(t, pool) == Failure(ReplaceEmptyOldValue)
  {
  }
}
