/**
 * What the generation policy promises: which methods get a stub and in what
 * order, that each stub mirrors its method's signature, and how type hints,
 * defaults, return types and doc comments are chosen.
 */
module Properties {
  import opened Metadata
  import opened Policy

  // ---------------------------------------------------------------------------
  // Which methods get a stub, and in which order
  // ---------------------------------------------------------------------------

  /** Generation distributes over concatenation of method lists. */
  lemma {:induction false} GenerateAppend(a: seq<MethodInfo>, b: seq<MethodInfo>, keys: set<string>, flags: Flags)
    ensures Generate(a + b, keys, flags) == Generate(a, keys, flags) + Generate(b, keys, flags)
    decreases |b|
  {
    if b == [] {
      assert a + b == a;
    } else {
      var b' := b[..|b| - 1];
      assert (a + b)[..|a + b| - 1] == a + b';
      assert (a + b)[|a + b| - 1] == b[|b| - 1];
      GenerateAppend(a, b', keys, flags);
    }
  }

  /**
   * Each method contributes its own declaration (or nothing) at its own place,
   * independently of every other method: in particular, of their annotations.
   */
  lemma GenerateIsPerMethod(ms: seq<MethodInfo>, keys: set<string>, flags: Flags, k: nat)
    requires k < |ms|
    ensures Generate(ms, keys, flags)
         == Generate(ms[..k], keys, flags) + Emitted(ms[k], keys, flags) + Generate(ms[k + 1..], keys, flags)
  {
    assert ms == ms[..k] + [ms[k]] + ms[k + 1..];
    GenerateAppend(ms[..k] + [ms[k]], ms[k + 1..], keys, flags);
    GenerateAppend(ms[..k], [ms[k]], keys, flags);
    assert [ms[k]][..0] == [];
  }

  /**
   * Changing the assisted annotation of one method changes at most that
   * method's own declaration: the output before and after it is the same.
   */
  lemma AnnotationIsolation(ms: seq<MethodInfo>, keys: set<string>, flags: Flags, k: nat, other: Option<seq<string>>)
    requires k < |ms|
    ensures Generate(ms[k := ms[k].(assisted := other)], keys, flags)
         == Generate(ms[..k], keys, flags)
          + Emitted(ms[k].(assisted := other), keys, flags)
          + Generate(ms[k + 1..], keys, flags)
  {
    var ms' := ms[k := ms[k].(assisted := other)];
    GenerateIsPerMethod(ms', keys, flags, k);
    assert ms'[..k] == ms[..k];
    assert ms'[k + 1..] == ms[k + 1..];
  }

  /** The output is the declaration of each proxied method, taken in the class's order. */
  lemma {:induction false} GenerateFollowsProxiedIndices(ms: seq<MethodInfo>, keys: set<string>, flags: Flags)
    ensures |Generate(ms, keys, flags)| == |ProxiedIndices(ms, keys)|
    ensures forall k :: 0 <= k < |ProxiedIndices(ms, keys)| ==>
      var m := ms[ProxiedIndices(ms, keys)[k]];
      Generate(ms, keys, flags)[k] == DeclOf(m, m.assisted, flags)
    decreases |ms|
  {
    if ms != [] {
      var last := |ms| - 1;
      var pre := ms[..last];
      GenerateFollowsProxiedIndices(pre, keys, flags);
      var idx, idx' := ProxiedIndices(ms, keys), ProxiedIndices(pre, keys);
      forall k | 0 <= k < |idx'|
        ensures ms[idx[k]] == pre[idx'[k]]
      {
        assert idx[k] == idx'[k];
      }
    }
  }

  /** The selected positions strictly increase: the class's order is kept. */
  lemma {:induction false} ProxiedIndicesIncrease(ms: seq<MethodInfo>, keys: set<string>)
    ensures forall j, k :: 0 <= j < k < |ProxiedIndices(ms, keys)| ==>
      ProxiedIndices(ms, keys)[j] < ProxiedIndices(ms, keys)[k]
    decreases |ms|
  {
    if ms != [] {
      var last := |ms| - 1;
      var pre := ms[..last];
      ProxiedIndicesIncrease(pre, keys);
      var idx' := ProxiedIndices(pre, keys);
      assert ProxiedIndices(ms, keys) == idx' + (if IsProxied(ms[last], keys) then [last] else []);
      assert forall k :: 0 <= k < |idx'| ==> idx'[k] < last;
    }
  }

  /** A position is selected if and only if its method is bound and public. */
  lemma {:induction false} ProxiedIndicesSelectExactly(ms: seq<MethodInfo>, keys: set<string>)
    ensures forall i :: 0 <= i < |ms| ==> (i in ProxiedIndices(ms, keys) <==> IsProxied(ms[i], keys))
    decreases |ms|
  {
    if ms != [] {
      var last := |ms| - 1;
      var pre := ms[..last];
      ProxiedIndicesSelectExactly(pre, keys);
      var idx, idx' := ProxiedIndices(ms, keys), ProxiedIndices(pre, keys);
      assert idx == idx' + (if IsProxied(ms[last], keys) then [last] else []);
      forall i | 0 <= i < |ms|
        ensures (i in idx <==> IsProxied(ms[i], keys))
      {
        if i < last {
          assert pre[i] == ms[i];
        } else {
          assert last !in idx';
        }
      }
    }
  }

  /** Every bound public method gets its declaration, built from its own annotation. */
  lemma ProxiedMethodIsGenerated(ms: seq<MethodInfo>, keys: set<string>, flags: Flags, i: nat)
    requires i < |ms| && ms[i].name in keys && ms[i].visibility == Public
    ensures DeclOf(ms[i], ms[i].assisted, flags) in Generate(ms, keys, flags)
  {
    GenerateIsPerMethod(ms, keys, flags, i);
  }

  /** Every generated declaration comes from some bound public method of the class. */
  lemma GeneratedFromProxiedMethod(ms: seq<MethodInfo>, keys: set<string>, flags: Flags, d: MethodDecl)
    requires d in Generate(ms, keys, flags)
    ensures exists i :: 0 <= i < |ms| && IsProxied(ms[i], keys) && d == DeclOf(ms[i], ms[i].assisted, flags)
  {
    GenerateFollowsProxiedIndices(ms, keys, flags);
    var k :| 0 <= k < |Generate(ms, keys, flags)| && Generate(ms, keys, flags)[k] == d;
    var i := ProxiedIndices(ms, keys)[k];
    assert IsProxied(ms[i], keys) && d == DeclOf(ms[i], ms[i].assisted, flags);
  }

  /** Method names are unique within a class. */
  ghost predicate UniqueNames(ms: seq<MethodInfo>)
  {
    forall i, j :: 0 <= i < j < |ms| ==> ms[i].name != ms[j].name
  }

  /** An unbound or non-public method gets no stub: no declaration carries its name. */
  lemma SkippedMethodHasNoStub(ms: seq<MethodInfo>, keys: set<string>, flags: Flags, i: nat)
    requires UniqueNames(ms)
    requires i < |ms| && !(ms[i].name in keys && ms[i].visibility == Public)
    ensures forall d :: d in Generate(ms, keys, flags) ==> d.name != ms[i].name
  {
    forall d | d in Generate(ms, keys, flags)
      ensures d.name != ms[i].name
    {
      GeneratedFromProxiedMethod(ms, keys, flags, d);
      var j :| 0 <= j < |ms| && IsProxied(ms[j], keys) && d == DeclOf(ms[j], ms[j].assisted, flags);
      assert j != i;
    }
  }

  /** Every declaration shares the same dispatch body, and its name is a binding key. */
  lemma GeneratedShareBodyAndAreBound(ms: seq<MethodInfo>, keys: set<string>, flags: Flags)
    ensures forall d :: d in Generate(ms, keys, flags) ==> d.body == DispatchTemplate && d.name in keys
  {
    forall d | d in Generate(ms, keys, flags)
      ensures d.body == DispatchTemplate && d.name in keys
    {
      GeneratedFromProxiedMethod(ms, keys, flags, d);
    }
  }

  // ---------------------------------------------------------------------------
  // One declaration
  // ---------------------------------------------------------------------------

  /**
   * The declaration keeps the method's name, its parameters' names in order
   * (none added, dropped or reordered), and its doc comment verbatim.
   */
  lemma DeclMirrorsSignature(m: MethodInfo, assisted: Option<seq<string>>, flags: Flags)
    ensures DeclOf(m, assisted, flags).name == m.name
    ensures |DeclOf(m, assisted, flags).params| == |m.params|
    ensures forall i :: 0 <= i < |m.params| ==> DeclOf(m, assisted, flags).params[i].name == m.params[i].name
    ensures DeclOf(m, assisted, flags).docComment == m.docComment
    ensures DeclOf(m, assisted, flags).body == DispatchTemplate
  {
  }

  /**
   * Defaults: an explicit default is kept as reflection reports it, whether or not the parameter
   * is assisted; otherwise the parameter defaults to `null` exactly when the
   * method's annotation lists it, and is required otherwise.
   */
  lemma DefaultPolicy(m: MethodInfo, assisted: Option<seq<string>>, flags: Flags, i: nat)
    requires i < |m.params|
    ensures var p, g := m.params[i], DeclOf(m, assisted, flags).params[i];
      && (p.defaultValue.Some? ==> g.defaultValue == p.defaultValue)
      && (p.defaultValue.None? && assisted.Some? && p.name in assisted.value ==> g.defaultValue == Some(Null))
      && (p.defaultValue.None? && !(assisted.Some? && p.name in assisted.value) ==> g.defaultValue == None)
  {
  }

  /** Without an annotation no parameter gains a default. */
  lemma NoAnnotationNoSyntheticDefault(m: MethodInfo, flags: Flags)
    ensures forall i :: 0 <= i < |m.params| ==>
      DeclOf(m, None, flags).params[i].defaultValue == m.params[i].defaultValue
  {
  }

  /**
   * Only the annotation's names that match a parameter matter: two annotations
   * that agree on the parameters give the same declaration.
   */
  lemma AssistedNamesOnlyMatterOnParams(m: MethodInfo, a1: Option<seq<string>>, a2: Option<seq<string>>, flags: Flags)
    requires forall i :: 0 <= i < |m.params| ==> (IsAssisted(a1, m.params[i].name) <==> IsAssisted(a2, m.params[i].name))
    ensures DeclOf(m, a1, flags) == DeclOf(m, a2, flags)
  {
    assert ParamDeclsOf(m.params, a1, flags) == ParamDeclsOf(m.params, a2, flags);
  }

  /** Names in an annotation that match no parameter have no effect. */
  lemma UnmatchedAssistedNamesIgnored(m: MethodInfo, names: seq<string>, extra: seq<string>, flags: Flags)
    requires forall i :: 0 <= i < |m.params| ==> m.params[i].name !in extra
    ensures DeclOf(m, Some(names + extra), flags) == DeclOf(m, Some(names), flags)
  {
    AssistedNamesOnlyMatterOnParams(m, Some(names + extra), Some(names), flags);
  }

  /** In unified mode the hint is the declared type's text, or absent. */
  lemma UnifiedTypeHint(m: MethodInfo, assisted: Option<seq<string>>, flags: Flags, i: nat)
    requires flags.isOverPhp7 && i < |m.params|
    ensures DeclOf(m, assisted, flags).params[i].typeHint == m.params[i].declaredType
  {
  }

  /** In legacy mode `callable` beats `array`, which beats the class name; else no hint. */
  lemma LegacyTypeHintOrder(m: MethodInfo, assisted: Option<seq<string>>, flags: Flags, i: nat)
    requires !flags.isOverPhp7 && i < |m.params|
    ensures var p, h := m.params[i], DeclOf(m, assisted, flags).params[i].typeHint;
      && (p.isCallable ==> h == Some("callable"))
      && (!p.isCallable && p.isArray ==> h == Some("array"))
      && (!p.isCallable && !p.isArray && p.className.Some? ==> h == p.className)
      && (!p.isCallable && !p.isArray && p.className.None? ==> h == None)
  {
  }

  /**
   * The return type is set exactly when the host is PHP 7, the builder can set
   * it, the method declares one and the method has at least one parameter.
   */
  lemma ReturnTypeRule(m: MethodInfo, assisted: Option<seq<string>>, flags: Flags)
    ensures var r := DeclOf(m, assisted, flags).returnType;
      && (r.Some? <==> flags.isOverPhp7 && flags.builderHasSetReturnType && m.returnType.Some? && |m.params| > 0)
      && (r.Some? ==> r == m.returnType)
  {
  }

  // ---------------------------------------------------------------------------
  // Scenarios
  // ---------------------------------------------------------------------------

  function Untyped(name: string): ParamInfo
  {
    ParamInfo(name, None, false, false, None, None)
  }

  function Typed(name: string, t: string): ParamInfo
  {
    ParamInfo(name, None, false, false, Some(t), None)
  }

  /** `run($a, $b, $c)` annotated with assisted `b`, `c` becomes `run($a, $b = null, $c = null)`. */
  lemma AssistedScenario(flags: Flags)
    ensures var run := MethodInfo("run", Public, [Untyped("a"), Untyped("b"), Untyped("c")], None, None, Some(["b", "c"]));
      Generate([run], {"run"}, flags)
        == [MethodDecl("run", [ParamDecl("a", None, None), ParamDecl("b", None, Some(Null)), ParamDecl("c", None, Some(Null))],
                       None, DispatchTemplate, None)]
  {
    var run := MethodInfo("run", Public, [Untyped("a"), Untyped("b"), Untyped("c")], None, None, Some(["b", "c"]));
    assert "a" !in ["b", "c"];
    assert [run][..0] == [];
    assert ParamDeclsOf(run.params, run.assisted, flags)
        == [ParamDecl("a", None, None), ParamDecl("b", None, Some(Null)), ParamDecl("c", None, Some(Null))];
  }

  /** `run(string $a, int $b, float $c, bool $d): array` is copied whole on PHP 7 with return-type support. */
  lemma TypedScenario()
    ensures var run := MethodInfo("run", Public,
                                  [Typed("a", "string"), Typed("b", "int"), Typed("c", "float"), Typed("d", "bool")],
                                  Some("array"), None, None);
      Generate([run], {"run"}, Flags(true, true))
        == [MethodDecl("run", [ParamDecl("a", Some("string"), None), ParamDecl("b", Some("int"), None),
                               ParamDecl("c", Some("float"), None), ParamDecl("d", Some("bool"), None)],
                       Some("array"), DispatchTemplate, None)]
  {
    var run := MethodInfo("run", Public,
                          [Typed("a", "string"), Typed("b", "int"), Typed("c", "float"), Typed("d", "bool")],
                          Some("array"), None, None);
    assert [run][..0] == [];
    assert ParamDeclsOf(run.params, None, Flags(true, true))
        == [ParamDecl("a", Some("string"), None), ParamDecl("b", Some("int"), None),
            ParamDecl("c", Some("float"), None), ParamDecl("d", Some("bool"), None)];
  }

  /** A method that is not bound produces nothing, even when public. */
  lemma UnboundScenario(flags: Flags)
    ensures Generate([MethodInfo("run", Public, [], None, None, None)], {}, flags) == []
  {
    assert [MethodInfo("run", Public, [], None, None, None)][..0] == [];
  }

  /** A method without parameters never gets a return type, even when it declares one. */
  lemma NoParamsNoReturnType(flags: Flags)
    ensures DeclOf(MethodInfo("run", Public, [], Some("array"), None, None), None, flags).returnType == None
  {
  }
}
