/**
 * The values the proxy-method generator reads and produces.
 *
 * Inputs stand for what PHP reflection and the annotation reader yield for a
 * class; outputs stand for the method nodes handed to the pretty printer.
 */
module Metadata {

  datatype Option<+T> = None | Some(value: T)

  datatype Visibility = Public | Protected | Private

  /**
   * A default value as reflection reports it (already evaluated): the `null`
   * constant, or any other value, which the builder turns back into a literal.
   */
  datatype Literal = Null | Evaluated(text: string)

  /**
   * One reflected parameter.
   *  - className:    the class of a class-typed parameter (ReflectionParameter::getClass)
   *  - isArray:      the parameter only accepts arrays
   *  - isCallable:   the parameter only accepts callables
   *  - declaredType: the declared type as text (ReflectionParameter::getType, PHP 7 and later)
   *  - defaultValue: the value of the explicit default, when one is available
   */
  datatype ParamInfo = ParamInfo(
    name: string,
    className: Option<string>,
    isArray: bool,
    isCallable: bool,
    declaredType: Option<string>,
    defaultValue: Option<Literal>)

  /**
   * One reflected method. `assisted` is what the annotation reader returns for
   * this method: no annotation, or the list of parameter names it declares.
   */
  datatype MethodInfo = MethodInfo(
    name: string,
    visibility: Visibility,
    params: seq<ParamInfo>,
    returnType: Option<string>,
    docComment: Option<string>,
    assisted: Option<seq<string>>)

  /**
   * The two capability switches: whether the host runs PHP 7 or later, and
   * whether the method builder offers `setReturnType`.
   */
  datatype Flags = Flags(isOverPhp7: bool, builderHasSetReturnType: bool)

  /** A generated parameter: name, optional type hint, optional default expression. */
  datatype ParamDecl = ParamDecl(name: string, typeHint: Option<string>, defaultValue: Option<Literal>)

  /** The method builder while parameters are being added. */
  datatype MethodBuilder = MethodBuilder(name: string, params: seq<ParamDecl>, returnType: Option<string>)

  /** The dispatch body parsed from the code template; kept opaque. */
  datatype Body = DispatchTemplate

  /** A generated proxy method declaration. */
  datatype MethodDecl = MethodDecl(
    name: string,
    params: seq<ParamDecl>,
    returnType: Option<string>,
    body: Body,
    docComment: Option<string>)
}
