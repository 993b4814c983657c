/**
 * CodeGenMethod: builds the proxy method declarations of a class.
 *
 * The object keeps the assisted annotation of the method being generated in
 * the field `assisted`, which getMethods reassigns for every method. The
 * builders of the PHP parser library are modelled as values that each step
 * returns updated.
 */
module CodeGen {
  import opened Metadata
  import opened Policy

  class CodeGenMethod {
    /** The host and builder capabilities, fixed for the generator's lifetime. */
    const flags: Flags

    /** The assisted annotation of the method currently being generated. */
    var assisted: Option<seq<string>>

    constructor (flags: Flags)
      ensures this.flags == flags && assisted == None
    {
      this.flags := flags;
      assisted := None;
    }

    /**
     * The declarations for the class's methods: one per bound public method,
     * in the class's order, each built under that method's own annotation.
     */
    method GetMethods(methods: seq<MethodInfo>, bindings: map<string, seq<string>>)
      returns (stmts: seq<MethodDecl>)
      modifies this`assisted
      ensures stmts == Generate(methods, bindings.Keys, flags)
      ensures |methods| > 0 ==> assisted == methods[|methods| - 1].assisted
      ensures |methods| == 0 ==> assisted == old(assisted)
    {
      var bindingMethods := bindings.Keys;
      stmts := [];
      var i := 0;
      while i < |methods|
        invariant 0 <= i <= |methods|
        invariant stmts == Generate(methods[..i], bindingMethods, flags)
        invariant i > 0 ==> assisted == methods[i - 1].assisted
        invariant i == 0 ==> assisted == old(assisted)
      {
        var m := methods[i];
        assisted := m.assisted;
        var isBindingMethod := m.name in bindingMethods;
        if isBindingMethod && m.visibility == Public {
          var node := GetMethod(m);
          stmts := stmts + [node];
        }
        assert methods[..i + 1][..i] == methods[..i];
        i := i + 1;
      }
      assert methods[..i] == methods;
    }

    /** The declaration for one method under the current annotation. */
    method GetMethod(m: MethodInfo) returns (node: MethodDecl)
      ensures node == DeclOf(m, assisted, flags)
    {
      var methodStmt := MethodBuilder(m.name, [], None);
      var i := 0;
      while i < |m.params|
        invariant 0 <= i <= |m.params|
        invariant methodStmt.name == m.name
        invariant methodStmt.params == ParamDeclsOf(m.params[..i], assisted, flags)
        invariant methodStmt.returnType == ReturnTypeOf(m.(params := m.params[..i]), flags)
      {
        methodStmt := GetMethodStatement(m.params[i], m.returnType, methodStmt);
        i := i + 1;
      }
      assert m.params[..i] == m.params;
      assert m.(params := m.params[..i]) == m;
      // The dispatch body parsed from the code template, the same for every method.
      node := MethodDecl(methodStmt.name, methodStmt.params, methodStmt.returnType,
                         DispatchTemplate, None);
      node := AddMethodDocComment(node, m);
    }

    /**
     * Adds one parameter to the builder and, on PHP 7, tries to set the
     * declaring method's return type.
     */
    method GetMethodStatement(param: ParamInfo, returnType: Option<string>, methodStmt: MethodBuilder)
      returns (r: MethodBuilder)
      ensures r.name == methodStmt.name
      ensures r.params == methodStmt.params + [ParamDeclOf(param, assisted, flags)]
      ensures r.returnType ==
        if flags.isOverPhp7 && flags.builderHasSetReturnType && returnType.Some? then returnType
        else methodStmt.returnType
    {
      var paramStmt := ParamDecl(param.name, None, None);
      paramStmt := SetParameterType(param, paramStmt, flags.isOverPhp7);
      paramStmt := SetDefault(param, paramStmt);
      r := methodStmt;
      if flags.isOverPhp7 {
        r := SetReturnType(returnType, r);
      }
      r := r.(params := r.params + [paramStmt]);
    }

    /** Attaches the method's doc comment, unchanged, when it has one. */
    method AddMethodDocComment(methodStmt: MethodDecl, m: MethodInfo) returns (node: MethodDecl)
      ensures node.docComment == if m.docComment.Some? then m.docComment else methodStmt.docComment
      ensures node.(docComment := methodStmt.docComment) == methodStmt
    {
      node := methodStmt;
      if m.docComment.Some? {
        node := node.(docComment := m.docComment);
      }
    }

    /**
     * Legacy type hint: class name, then `array`, then `callable`, each
     * overwriting the previous one.
     */
    method SetTypeHint(param: ParamInfo, paramStmt: ParamDecl) returns (r: ParamDecl)
      ensures r.name == paramStmt.name && r.defaultValue == paramStmt.defaultValue
      ensures param.isCallable ==> r.typeHint == Some("callable")
      ensures !param.isCallable && param.isArray ==> r.typeHint == Some("array")
      ensures !param.isCallable && !param.isArray ==>
        r.typeHint == if param.className.Some? then param.className else paramStmt.typeHint
    {
      r := paramStmt;
      if param.className.Some? {
        r := r.(typeHint := param.className);
      }
      if param.isArray {
        r := r.(typeHint := Some("array"));
      }
      if param.isCallable {
        r := r.(typeHint := Some("callable"));
      }
    }

    /** The reported default as is; else `null` for an assisted parameter; else unchanged. */
    method SetDefault(param: ParamInfo, paramStmt: ParamDecl) returns (r: ParamDecl)
      ensures r.name == paramStmt.name && r.typeHint == paramStmt.typeHint
      ensures param.defaultValue.Some? ==> r.defaultValue == param.defaultValue
      ensures param.defaultValue.None? && IsAssisted(assisted, param.name) ==> r.defaultValue == Some(Null)
      ensures param.defaultValue.None? && !IsAssisted(assisted, param.name) ==>
        r.defaultValue == paramStmt.defaultValue
    {
      r := paramStmt;
      if param.defaultValue.Some? {
        r := r.(defaultValue := param.defaultValue);
        return;
      }
      if assisted.Some? && param.name in assisted.value {
        r := r.(defaultValue := Some(Null));
      }
    }

    /** Unified mode copies the declared type; legacy mode runs SetTypeHint. */
    method SetParameterType(param: ParamInfo, paramStmt: ParamDecl, isOverPhp7: bool) returns (r: ParamDecl)
      ensures r.name == paramStmt.name && r.defaultValue == paramStmt.defaultValue
      ensures paramStmt.typeHint.None? ==> r.typeHint == TypeHint(param, isOverPhp7)
      ensures isOverPhp7 ==>
        r.typeHint == if param.declaredType.Some? then param.declaredType else paramStmt.typeHint
      ensures !isOverPhp7 ==>
        r.typeHint == if param.isCallable then Some("callable")
                      else if param.isArray then Some("array")
                      else if param.className.Some? then param.className
                      else paramStmt.typeHint
    {
      if !isOverPhp7 {
        r := SetTypeHint(param, paramStmt);
        return;
      }
      r := paramStmt;
      if param.declaredType.Some? {
        r := r.(typeHint := param.declaredType);
      }
    }

    /** Sets the method's declared return type when it has one and the builder supports it. */
    method SetReturnType(returnType: Option<string>, methodStmt: MethodBuilder) returns (r: MethodBuilder)
      ensures r.name == methodStmt.name && r.params == methodStmt.params
      ensures r.returnType ==
        if returnType.Some? && flags.builderHasSetReturnType then returnType else methodStmt.returnType
    {
      r := methodStmt;
      if returnType.Some? && flags.builderHasSetReturnType {
        r := r.(returnType := returnType);
      }
    }
  }
}
