/**
 * The code-generation policy of CodeGenMethod, stated as functions on values.
 * The imperative class in codegen_method.dfy is proved to compute exactly these,
 * and properties.dfy proves what the policy promises.
 */
module Policy {
  import opened Metadata

  /** A method gets a proxy stub when its name is a binding key and it is public. */
  predicate IsProxied(m: MethodInfo, bindingMethods: set<string>)
  {
    m.name in bindingMethods && m.visibility == Public
  }

  /** The parameter is named by the method's assisted annotation (absent annotation: never). */
  predicate IsAssisted(assisted: Option<seq<string>>, name: string)
  {
    assisted.Some? && name in assisted.value
  }

  /** Type hint before PHP 7: `callable` beats `array`, which beats the class name. */
  function LegacyTypeHint(p: ParamInfo): Option<string>
  {
    if p.isCallable then Some("callable")
    else if p.isArray then Some("array")
    else p.className
  }

  /** Type hint of a generated parameter under either mode. */
  function TypeHint(p: ParamInfo, isOverPhp7: bool): Option<string>
  {
    if isOverPhp7 then p.declaredType else LegacyTypeHint(p)
  }

  /** An explicit default wins; otherwise an assisted parameter defaults to `null`. */
  function DefaultOf(p: ParamInfo, assisted: Option<seq<string>>): Option<Literal>
  {
    if p.defaultValue.Some? then p.defaultValue
    else if IsAssisted(assisted, p.name) then Some(Null)
    else None
  }

  function ParamDeclOf(p: ParamInfo, assisted: Option<seq<string>>, flags: Flags): ParamDecl
  {
    ParamDecl(p.name, TypeHint(p, flags.isOverPhp7), DefaultOf(p, assisted))
  }

  function ParamDeclsOf(ps: seq<ParamInfo>, assisted: Option<seq<string>>, flags: Flags): seq<ParamDecl>
  {
    seq(|ps|, i requires 0 <= i < |ps| => ParamDeclOf(ps[i], assisted, flags))
  }

  /**
   * The return type is copied only on PHP 7 with a builder that can set it,
   * and only from inside the per-parameter loop: a method without parameters
   * never gets one.
   */
  function ReturnTypeOf(m: MethodInfo, flags: Flags): Option<string>
  {
    if flags.isOverPhp7 && flags.builderHasSetReturnType && |m.params| > 0 then m.returnType
    else None
  }

  /** The proxy declaration for one method under the given assisted annotation. */
  function DeclOf(m: MethodInfo, assisted: Option<seq<string>>, flags: Flags): MethodDecl
  {
    MethodDecl(m.name, ParamDeclsOf(m.params, assisted, flags), ReturnTypeOf(m, flags),
               DispatchTemplate, m.docComment)
  }

  /** What one method contributes to the output: its declaration, or nothing. */
  function Emitted(m: MethodInfo, bindingMethods: set<string>, flags: Flags): seq<MethodDecl>
  {
    if IsProxied(m, bindingMethods) then [DeclOf(m, m.assisted, flags)] else []
  }

  /** The declarations for a class's methods, in the class's order; each uses its own annotation. */
  function Generate(ms: seq<MethodInfo>, bindingMethods: set<string>, flags: Flags): seq<MethodDecl>
  {
    if ms == [] then []
    else Generate(ms[..|ms| - 1], bindingMethods, flags) + Emitted(ms[|ms| - 1], bindingMethods, flags)
  }

  /** Positions of the proxied methods, in increasing order (the reference for Generate). */
  function ProxiedIndices(ms: seq<MethodInfo>, bindingMethods: set<string>): (idx: seq<nat>)
    ensures forall k :: 0 <= k < |idx| ==> idx[k] < |ms|
    ensures forall k :: 0 <= k < |idx| ==> IsProxied(ms[idx[k]], bindingMethods)
  {
    if ms == [] then []
    else
      var last := |ms| - 1;
      ProxiedIndices(ms[..last], bindingMethods)
        + (if IsProxied(ms[last], bindingMethods) then [last] else [])
  }
}
