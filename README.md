# Ray.Aop proxy-method generation, modelled in Dafny

Ray.Aop weaves interceptors into a class by generating a proxy subclass. `CodeGenMethod`
produces the method declarations of that subclass. It goes over the class's methods in their
declared order. A method that is public and whose name is a key of the binding table gets a
stub. The stub has the same name, the same parameters in the same order, the parameters' type
hints and defaults, and possibly the return type. Its body is the fixed interceptor-dispatch
template, and it carries the original doc comment.

The model has four files:

- `metadata.dfy` (module `Metadata`): the reflected inputs (`ParamInfo`, `MethodInfo`, the
  capability `Flags`) and the generated outputs (`ParamDecl`, `MethodBuilder`, `MethodDecl`).
  The assisted annotation that the annotation reader returns for a method is the field
  `MethodInfo.assisted`: no annotation, or the list of names it declares.
- `policy.dfy` (module `Policy`): the generation policy as functions on values. `IsProxied`,
  `LegacyTypeHint`, `TypeHint`, `DefaultOf`, `ReturnTypeOf` and `DeclOf` cover one method.
  `Generate` covers a whole class, and `ProxiedIndices` is the reference list of the positions
  that get a stub.
- `codegen_method.dfy` (module `CodeGen`): the class `CodeGenMethod`, written in the same
  imperative style as the PHP class. It has a field `assisted`, which `GetMethods` reassigns
  for every method. It loops over methods and over parameters, accumulating into sequences.
  Each step updates a builder value. Every method is proved to compute exactly what the
  policy functions say.
- `properties.dfy` (module `Properties`): what the policy promises. This covers the selection
  and order of stubs, isolation between methods' annotations, the signature being mirrored,
  the default, type-hint and return-type rules, and the scenarios of the project's tests.

Points of the code that the model keeps:

- In legacy mode the code overwrites the hint three times: class name, then `array`, then
  `callable`. So `callable` wins over `array`, which wins over the class name
  (`LegacyTypeHintOrder`). Reflection reports at most one of class, `array` and `callable`
  for a parameter, so the overwrite order only matters when more than one holds.
- `setReturnType` runs inside the per-parameter loop, so a method without parameters never
  gets a return type, even when it declares one (`NoParamsNoReturnType`).
- The code reads and parses the body template on every call; nothing is cached. The body is
  modelled as one opaque constant, `DispatchTemplate`, the same for every method.
- The annotation holds a list of names, not a set. Only membership is used.

## Model

| member | source | states |
|---|---|---|
| CodeGen.CodeGenMethod.constructor | src/CodeGenMethod.php:47-56 | a fresh generator holds the given capability flags and no annotation |
| CodeGen.CodeGenMethod.GetMethods | src/CodeGenMethod.php:63-78 | the result equals `Generate` over the class's methods with the binding table's keys. Afterwards the `assisted` field holds the last method's annotation, or is unchanged for a class without methods |
| CodeGen.CodeGenMethod.GetMethod | src/CodeGenMethod.php:87-99 | the declaration built by the parameter loop, the template body and the doc comment equals `DeclOf` under the current annotation |
| CodeGen.CodeGenMethod.GetMethodStatement | src/CodeGenMethod.php:109-124 | appends exactly one parameter, resolved by the policy, after the existing ones. On PHP 7 with builder support and a declared return type, it sets the return type; otherwise it leaves the return type alone |
| CodeGen.CodeGenMethod.AddMethodDocComment | src/CodeGenMethod.php:132-141 | the doc comment is attached verbatim when the method has one. Nothing else in the node changes |
| CodeGen.CodeGenMethod.SetTypeHint | src/CodeGenMethod.php:163-174 | the three successive overwrites amount to a priority: `callable`, then `array`, then the class name, else the hint is unchanged. Name and default are untouched |
| CodeGen.CodeGenMethod.SetDefault | src/CodeGenMethod.php:180-190 | an explicit default is copied as reflection reports it, even for an assisted parameter. Otherwise a parameter listed by the current annotation gets `null`. Otherwise the default is unchanged |
| CodeGen.CodeGenMethod.SetParameterType | src/CodeGenMethod.php:198-209 | on a fresh parameter the hint equals `TypeHint`: the declared type on PHP 7, the legacy priority otherwise. For any incoming hint: on PHP 7 the declared type replaces it when present; before PHP 7 `callable`, then `array`, then the class name replace it, and otherwise it stays |
| CodeGen.CodeGenMethod.SetReturnType | src/CodeGenMethod.php:215-221 | the return type is set to the declaring method's type exactly when it has one and the builder supports it. Parameters and name are untouched |
| Policy.ProxiedIndices | src/CodeGenMethod.php:68-75 | every listed position is inside the method list and names a bound public method |
| Properties.GenerateAppend | src/CodeGenMethod.php:66-77 | generating for two method lists one after the other gives the concatenation of the two outputs |
| Properties.GenerateIsPerMethod | src/CodeGenMethod.php:68-75 | method k contributes its own declaration, or nothing, between the outputs of the methods before and after it |
| Properties.AnnotationIsolation | src/CodeGenMethod.php:69 | changing one method's assisted annotation leaves the output of every other method unchanged |
| Properties.GenerateFollowsProxiedIndices | src/CodeGenMethod.php:63-78 | the output has one declaration per proxied position, in the class's order. Each one is built from that method's own annotation |
| Properties.ProxiedIndicesIncrease | src/CodeGenMethod.php:67-68 | the selected positions strictly increase, so the stubs keep the class's method order |
| Properties.ProxiedIndicesSelectExactly | src/CodeGenMethod.php:70-74 | a position is selected if and only if its method is bound and public |
| Properties.ProxiedMethodIsGenerated | src/CodeGenMethod.php:72-74 | every bound public method's declaration appears in the output |
| Properties.GeneratedFromProxiedMethod | src/CodeGenMethod.php:72-74 | every output declaration is the declaration of some bound public method of the class |
| Properties.SkippedMethodHasNoStub | src/CodeGenMethod.php:70-74 | when method names are unique, an unbound or non-public method gets no declaration with its name |
| Properties.GeneratedShareBodyAndAreBound | src/CodeGenMethod.php:94-95 | every declaration has the same template body, and its name is a binding key |
| Properties.DeclMirrorsSignature | src/CodeGenMethod.php:87-98 | the declaration keeps the method's name and its parameters' count, names and order, plus the doc comment verbatim |
| Properties.DefaultPolicy | src/CodeGenMethod.php:180-190 | an explicit default is kept as reflection reports it. With no explicit default, a listed assisted parameter gets `null`, and any other parameter gets no default |
| Properties.NoAnnotationNoSyntheticDefault | src/CodeGenMethod.php:187-189 | without an annotation every parameter's default is exactly its explicit default, or none |
| Properties.AssistedNamesOnlyMatterOnParams | src/CodeGenMethod.php:187 | two annotations that agree on the method's parameter names give the same declaration |
| Properties.UnmatchedAssistedNamesIgnored | src/CodeGenMethod.php:187 | adding names that match no parameter to an annotation changes nothing |
| Properties.UnifiedTypeHint | src/CodeGenMethod.php:205-208 | on PHP 7 each hint is the declared type's text, or absent |
| Properties.LegacyTypeHintOrder | src/CodeGenMethod.php:163-174 | before PHP 7, `callable` beats `array`, which beats the class name; with none of the three there is no hint |
| Properties.ReturnTypeRule | src/CodeGenMethod.php:118-120 | a return type is present if and only if PHP 7 is on, the builder supports it, the method declares one and has at least one parameter. When present it is the declared one |
| Properties.NoParamsNoReturnType | src/CodeGenMethod.php:90-93 | a method without parameters gets no return type even when it declares one |
| Properties.AssistedScenario | tests/CodeGenTest.php:11-19 | `run($a, $b, $c)` with assisted `b`, `c` and `run` bound becomes `run($a, $b = null, $c = null)` |
| Properties.TypedScenario | tests/CodeGenTest.php:21-36 | `run(string $a, int $b, float $c, bool $d): array` is copied whole on PHP 7 with return-type support |
| Properties.UnboundScenario | src/CodeGenMethod.php:70-74 | a public method that is not bound produces nothing |

## Left out

- Reflection and the annotation reader: the class's methods, their parameters and each
  method's assisted annotation are input values.
- The PHP parser library's builders, node attributes and pretty printer: declarations are
  plain values, and rendering them to source text is not modelled.
- Reading and parsing the body template file: the body is one opaque constant. A missing or
  unparsable template is not modelled.
- The runtime checks of the PHP version and of `method_exists(..., 'setReturnType')`: they
  are the two boolean `Flags`.
- PHP truthiness of the doc comment (an empty string or `"0"` is not attached): the doc
  comment is an optional string, attached whenever present.
- Default values arrive already evaluated: a default written as a constant reference
  (`self::LIMIT`, `PHP_EOL`) is modelled as the value reflection reports, not as the written
  expression.
- Two exception paths: the annotation reader runs for every method before the bound/public
  filter and throws on an unimported annotation in any method's doc comment, and
  `getClass()` runs for every parameter of a proxied method and throws when the hinted class
  cannot be loaded. The model assumes both calls succeed, so generation never fails.
- PHP's loose comparison in `in_array` for binding keys and assisted names: names are
  compared exactly.
- The `CodeGen` wrapper class that the tests call is not part of this model.
