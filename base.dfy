/** The tool base class (pythoneer/tools/base.py): parameters, construction,
    the argument-validation pipeline and the JSON description given to the
    language model. */
module ToolBase {
  import opened Common
  import opened Dicts

  /** A parameter of a tool. `required` defaults to true. `enumValues` holds
      the allowed values two tool declarations pass as `enum=`; the dataclass
      has no such field, and nothing reads it. */
  datatype Parameter = Parameter(
    name: string,
    paramType: string,
    description: string,
    required: bool := true,
    enumValues: Option<seq<string>> := None
  )

  /** The six concrete tool classes; `_use` and the value checks dispatch on it. */
  datatype ToolKind = OpenFile | EditFile | CreateFile | RunPythonScript | RunAllTests | CompleteTask

  /** A tool class: its Python class name, which concrete tool it is (None for
      a class that still has the abstract `_use`, such as `Tool` itself) and
      its three class attributes, None where the class leaves them unset. */
  datatype ToolClass = ToolClass(
    className: string,
    kind: Option<ToolKind>,
    name: Option<string>,
    description: Option<string>,
    parameters: Option<seq<Parameter>>
  )

  /** An instance of a concrete tool class: the class attributes, all set,
      and the keyword arguments it was created with. */
  datatype Tool = Tool(
    className: string,
    kind: ToolKind,
    name: string,
    description: string,
    parameters: seq<Parameter>,
    arguments: Arguments
  )

  const DescriptorsMissingMessage: string :=
    "Tool subclass must define NAME, DESCRIPTION, and PARAMETERS class attributes."

  /** The message Python gives when a class with an abstract method is instantiated. */
  function AbstractClassMessage(className: string): string {
    "Can't instantiate abstract class " + className + " with abstract method _use"
  }

  /** `cls(**kwargs)`: an abstract class cannot be instantiated; a class with
      a descriptor left unset raises NotImplementedError; otherwise the
      arguments are stored as given. */
  function Construct(cls: ToolClass, arguments: Arguments): (r: Result<Tool>)
    ensures cls.kind.None? ==> r == Failure(TypeError(AbstractClassMessage(cls.className)))
    ensures cls.kind.Some? && (cls.name.None? || cls.description.None? || cls.parameters.None?) ==>
              r == Failure(NotImplementedError(DescriptorsMissingMessage))
    ensures r.Success? <==> cls.kind.Some? && cls.name.Some? && cls.description.Some? && cls.parameters.Some?
    ensures r.Success? ==>
              && r.value.arguments == arguments
              && r.value.className == cls.className
              && Some(r.value.kind) == cls.kind
              && Some(r.value.name) == cls.name
              && Some(r.value.description) == cls.description
              && Some(r.value.parameters) == cls.parameters
  {
    if cls.kind.None? then
      Failure(TypeError(AbstractClassMessage(cls.className)))
    else if cls.name.None? || cls.description.None? || cls.parameters.None? then
      Failure(NotImplementedError(DescriptorsMissingMessage))
    else
      Success(Tool(cls.className, cls.kind.value, cls.name.value, cls.description.value, cls.parameters.value, arguments))
  }

  // ----- stage 1: every required parameter is present -----

  function MissingArgumentMessage(className: string, name: string): string {
    "Tool " + className + " is missing required argument: " + name
  }

  /** The parameter is optional, or an argument of its name was given. */
  predicate Present(p: Parameter, arguments: Dict<Value>) {
    !p.required || p.name in arguments.entries
  }

  /** The presence check, scanning the parameters in declaration order: it
      fails exactly when a required parameter has no argument, naming the
      first such parameter. */
  function PresenceCheck(className: string, params: seq<Parameter>, arguments: Dict<Value>): (r: Result<()>)
    ensures r.Success? <==> forall i | 0 <= i < |params| :: Present(params[i], arguments)
    ensures r.Failure? ==>
              exists i | 0 <= i < |params| ::
                && !Present(params[i], arguments)
                && (forall j | 0 <= j < i :: Present(params[j], arguments))
                && r.error == ValueError(MissingArgumentMessage(className, params[i].name))
  {
    if params == [] then Success(())
    else if !Present(params[0], arguments) then
      Failure(ValueError(MissingArgumentMessage(className, params[0].name)))
    else
      var rest := PresenceCheck(className, params[1..], arguments);
      assert forall i | 0 <= i < |params| - 1 :: params[1..][i] == params[i + 1];
      rest
  }

  /** `_validate_all_parameters_present` */
  method ValidateAllParametersPresent(tool: Tool) returns (r: Result<()>)
    ensures r == PresenceCheck(tool.className, tool.parameters, tool.arguments)
  {
    var params := tool.parameters;
    var i := 0;
    while i < |params|
      invariant 0 <= i <= |params|
      invariant PresenceCheck(tool.className, params[i..], tool.arguments) ==
                PresenceCheck(tool.className, params, tool.arguments)
    {
      assert params[i..][1..] == params[i + 1..];
      if params[i].required && params[i].name !in tool.arguments.entries {
        return Failure(ValueError(MissingArgumentMessage(tool.className, params[i].name)));
      }
      i := i + 1;
    }
    return Success(());
  }

  // ----- stage 3: the supplied arguments have their declared types -----

  /** The declared type of a parameter as a Python type name: the JSON type
      "string" is Python's `str`; every other name is compared as it is. */
  function ExpectedType(declared: string): string {
    if declared == "string" then "str" else declared
  }

  function TypeMismatchMessage(name: string, expected: string, actual: string): string {
    "Invalid argument type for " + name + ". Expected " + expected + ", got " + actual + "."
  }

  /** No argument was given for the parameter, or the one given has its type. */
  predicate WellTyped(p: Parameter, arguments: Dict<Value>) {
    p.name in arguments.entries ==> TypeName(arguments.entries[p.name]) == ExpectedType(p.paramType)
  }

  /** The type check, scanning the parameters in declaration order: it fails
      exactly when a supplied argument has another type than its parameter
      declares, reporting the first such parameter. */
  function TypeCheck(params: seq<Parameter>, arguments: Dict<Value>): (r: Result<()>)
    ensures r.Success? <==> forall i | 0 <= i < |params| :: WellTyped(params[i], arguments)
    ensures r.Failure? ==>
              exists i | 0 <= i < |params| ::
                && !WellTyped(params[i], arguments)
                && (forall j | 0 <= j < i :: WellTyped(params[j], arguments))
                && r.error == ValueError(TypeMismatchMessage(params[i].name, ExpectedType(params[i].paramType),
                                                             TypeName(arguments.entries[params[i].name])))
  {
    if params == [] then Success(())
    else if !WellTyped(params[0], arguments) then
      Failure(ValueError(TypeMismatchMessage(params[0].name, ExpectedType(params[0].paramType),
                                             TypeName(arguments.entries[params[0].name]))))
    else
      var rest := TypeCheck(params[1..], arguments);
      assert forall i | 0 <= i < |params| - 1 :: params[1..][i] == params[i + 1];
      rest
  }

  /** `_validate_argument_types` */
  method ValidateArgumentTypes(tool: Tool) returns (r: Result<()>)
    ensures r == TypeCheck(tool.parameters, tool.arguments)
  {
    var params := tool.parameters;
    var i := 0;
    while i < |params|
      invariant 0 <= i <= |params|
      invariant TypeCheck(params[i..], tool.arguments) == TypeCheck(params, tool.arguments)
    {
      assert params[i..][1..] == params[i + 1..];
      var p := params[i];
      if p.name in tool.arguments.entries {
        var expected := ExpectedType(p.paramType);
        var actual := TypeName(tool.arguments.entries[p.name]);
        if actual != expected {
          return Failure(ValueError(TypeMismatchMessage(p.name, expected, actual)));
        }
      }
      i := i + 1;
    }
    return Success(());
  }

  // ----- stage 4: arguments no parameter names are reported, never rejected -----

  function ParameterNames(params: seq<Parameter>): (names: seq<string>)
    ensures |names| == |params|
    ensures forall i :: 0 <= i < |params| ==> names[i] == params[i].name
  {
    seq(|params|, i requires 0 <= i < |params| => params[i].name)
  }

  function UnusedArgumentMessage(argument: string, toolName: string): string {
    "Unused argument: '" + argument + "' provided to '" + toolName + "' tool."
  }

  /** One warning per argument, in argument order, whose name is not a
      parameter name. */
  function UnusedWarnings(argumentNames: seq<string>, names: seq<string>, toolName: string): (ws: seq<string>)
    ensures |ws| <= |argumentNames|
    ensures ws == [] <==> forall k | k in argumentNames :: k in names
    ensures forall w :: w in ws <==> exists k | k in argumentNames :: k !in names && w == UnusedArgumentMessage(k, toolName)
  {
    if argumentNames == [] then []
    else
      var rest := UnusedWarnings(argumentNames[1..], names, toolName);
      assert forall k :: k in argumentNames <==> k == argumentNames[0] || k in argumentNames[1..];
      if argumentNames[0] in names then rest
      else [UnusedArgumentMessage(argumentNames[0], toolName)] + rest
  }

  /** Warning about one more argument adds its warning, if any, at the end. */
  lemma {:induction false} UnusedWarningsAppend(argumentNames: seq<string>, k: string, names: seq<string>, toolName: string)
    ensures UnusedWarnings(argumentNames + [k], names, toolName)
            == UnusedWarnings(argumentNames, names, toolName) + (if k in names then [] else [UnusedArgumentMessage(k, toolName)])
  {
    if argumentNames != [] {
      assert (argumentNames + [k])[1..] == argumentNames[1..] + [k];
      UnusedWarningsAppend(argumentNames[1..], k, names, toolName);
    }
  }

  /** `_warn_unused_arguments`: the warnings it logs, in argument order, are returned. */
  method WarnUnusedArguments(tool: Tool) returns (warnings: seq<string>)
    ensures warnings == UnusedWarnings(tool.arguments.keys, ParameterNames(tool.parameters), tool.name)
  {
    var names := ParameterNames(tool.parameters);
    var keys := tool.arguments.keys;
    warnings := [];
    var i := 0;
    while i < |keys|
      invariant 0 <= i <= |keys|
      invariant warnings == UnusedWarnings(keys[..i], names, tool.name)
    {
      assert keys[..i + 1] == keys[..i] + [keys[i]];
      UnusedWarningsAppend(keys[..i], keys[i], names, tool.name);
      if keys[i] !in names {
        warnings := warnings + [UnusedArgumentMessage(keys[i], tool.name)];
      }
      i := i + 1;
    }
    assert keys[..|keys|] == keys;
  }

  // ----- the whole pipeline -----

  predicate AllPresent(tool: Tool) {
    forall i | 0 <= i < |tool.parameters| :: Present(tool.parameters[i], tool.arguments)
  }

  predicate AllWellTyped(tool: Tool) {
    forall i | 0 <= i < |tool.parameters| :: WellTyped(tool.parameters[i], tool.arguments)
  }

  /** `validate_arguments`: presence, then the tool's own value check (whose
      outcome is given), then types; the first failing stage raises. On
      success the result holds the unused-argument warnings. */
  function Validation(tool: Tool, valueCheck: Result<()>): (r: Result<seq<string>>)
    ensures r.Success? <==> AllPresent(tool) && valueCheck.Success? && AllWellTyped(tool)
    ensures r.Success? ==> r.value == UnusedWarnings(tool.arguments.keys, ParameterNames(tool.parameters), tool.name)
  {
    var presence := PresenceCheck(tool.className, tool.parameters, tool.arguments);
    if presence.Failure? then Failure(presence.error)
    else if valueCheck.Failure? then Failure(valueCheck.error)
    else
      var types := TypeCheck(tool.parameters, tool.arguments);
      if types.Failure? then Failure(types.error)
      else Success(UnusedWarnings(tool.arguments.keys, ParameterNames(tool.parameters), tool.name))
  }

  /** `validate_arguments`, run stage by stage. */
  method ValidateArguments(tool: Tool, valueCheck: Result<()>) returns (r: Result<seq<string>>)
    ensures r == Validation(tool, valueCheck)
  {
    var presence := ValidateAllParametersPresent(tool);
    if presence.Failure? {
      return Failure(presence.error);
    }
    if valueCheck.Failure? {
      return Failure(valueCheck.error);
    }
    var types := ValidateArgumentTypes(tool);
    if types.Failure? {
      return Failure(types.error);
    }
    var warnings := WarnUnusedArguments(tool);
    return Success(warnings);
  }

  /** The first stage decides: when a required parameter is missing, the
      error names the first one, whatever the value check and the types say. */
  lemma MissingArgumentFailsFirst(tool: Tool, valueCheck: Result<()>, i: nat)
    requires i < |tool.parameters| && !Present(tool.parameters[i], tool.arguments)
    requires forall j | 0 <= j < i :: Present(tool.parameters[j], tool.arguments)
    ensures Validation(tool, valueCheck) == Failure(ValueError(MissingArgumentMessage(tool.className, tool.parameters[i].name)))
  {
    var params := tool.parameters;
    var presence := PresenceCheck(tool.className, params, tool.arguments);
    var k :| 0 <= k < |params| && !Present(params[k], tool.arguments)
             && (forall j | 0 <= j < k :: Present(params[j], tool.arguments))
             && presence.error == ValueError(MissingArgumentMessage(tool.className, params[k].name));
    assert !(k < i) && !(i < k);
  }

  /** Once validation has passed, a required parameter declared "string" has
      an argument, and that argument is a str. */
  lemma ValidatedStringArgument(tool: Tool, valueCheck: Result<()>, i: nat)
    requires Validation(tool, valueCheck).Success?
    requires i < |tool.parameters| && tool.parameters[i].required && tool.parameters[i].paramType == "string"
    ensures tool.parameters[i].name in tool.arguments.entries
    ensures tool.arguments.entries[tool.parameters[i].name].Str?
  {
    assert Present(tool.parameters[i], tool.arguments);
    assert WellTyped(tool.parameters[i], tool.arguments);
    assert tool.arguments.entries[tool.parameters[i].name].WellFormed();
  }

  /** The value check runs second: with every required parameter present its
      error is the error, whatever the types say. */
  lemma ValueCheckFailsBeforeTypes(tool: Tool, valueCheck: Result<()>)
    requires AllPresent(tool) && valueCheck.Failure?
    ensures Validation(tool, valueCheck) == Failure(valueCheck.error)
  {
  }

  /** The type check runs third: when presence and the value check pass, the
      first parameter whose argument has the wrong type is reported. */
  lemma TypeMismatchFailsThird(tool: Tool, valueCheck: Result<()>, i: nat)
    requires AllPresent(tool) && valueCheck.Success?
    requires i < |tool.parameters| && !WellTyped(tool.parameters[i], tool.arguments)
    requires forall j | 0 <= j < i :: WellTyped(tool.parameters[j], tool.arguments)
    ensures Validation(tool, valueCheck) ==
            Failure(ValueError(TypeMismatchMessage(tool.parameters[i].name, ExpectedType(tool.parameters[i].paramType),
                                                   TypeName(tool.arguments.entries[tool.parameters[i].name]))))
  {
    var params := tool.parameters;
    var types := TypeCheck(params, tool.arguments);
    assert PresenceCheck(tool.className, params, tool.arguments).Success?;
    assert types.Failure?;
    assert Validation(tool, valueCheck) == Failure(types.error);
    FirstMismatchUnique(params, tool.arguments, i);
  }

  /** The mismatch `TypeCheck` reports is the first one. */
  lemma FirstMismatchUnique(params: seq<Parameter>, arguments: Dict<Value>, i: nat)
    requires i < |params| && !WellTyped(params[i], arguments)
    requires forall j | 0 <= j < i :: WellTyped(params[j], arguments)
    ensures TypeCheck(params, arguments) ==
            Failure(ValueError(TypeMismatchMessage(params[i].name, ExpectedType(params[i].paramType),
                                                   TypeName(arguments.entries[params[i].name]))))
  {
    var types := TypeCheck(params, arguments);
    var k :| 0 <= k < |params| && !WellTyped(params[k], arguments)
             && (forall j | 0 <= j < k :: WellTyped(params[j], arguments))
             && types.error == ValueError(TypeMismatchMessage(params[k].name, ExpectedType(params[k].paramType),
                                                              TypeName(arguments.entries[params[k].name])));
    assert !(k < i) && !(i < k);
  }

  /** An argument that names no parameter never makes validation fail: adding
      one leaves the outcome as it was, and only adds a warning. */
  lemma UnusedArgumentNeverRaises(tool: Tool, valueCheck: Result<()>, k: string, v: Value)
    requires k !in ParameterNames(tool.parameters) && v.WellFormed()
    ensures var extended := tool.(arguments := tool.arguments.Put(k, v));
            && (Validation(extended, valueCheck).Success? <==> Validation(tool, valueCheck).Success?)
            && (Validation(tool, valueCheck).Success? && k !in tool.arguments.entries ==>
                  UnusedArgumentMessage(k, tool.name) in Validation(extended, valueCheck).value)
  {
    var extended := tool.(arguments := tool.arguments.Put(k, v));
    forall i | 0 <= i < |tool.parameters|
      ensures Present(tool.parameters[i], extended.arguments) == Present(tool.parameters[i], tool.arguments)
      ensures WellTyped(tool.parameters[i], extended.arguments) == WellTyped(tool.parameters[i], tool.arguments)
    {
      assert ParameterNames(tool.parameters)[i] == tool.parameters[i].name;
    }
    if k !in tool.arguments.entries {
      assert k in extended.arguments.keys;
    }
  }

  // ----- json_description -----

  datatype PropertySchema = PropertySchema(propertyType: string, description: string)

  /** `{"type": "object", "properties": ..., "required": ...}` */
  datatype InputSchema = InputSchema(schemaType: string, properties: Dict<PropertySchema>, required: seq<string>)

  /** `{"name": ..., "description": ..., "input_schema": ...}`; the name and
      the description are JSON null when the class leaves them unset. */
  datatype ToolDescription = ToolDescription(name: Option<string>, description: Option<string>, inputSchema: InputSchema)

  function SchemaOf(p: Parameter): PropertySchema {
    PropertySchema(p.paramType, p.description)
  }

  /** The `properties` dict after assigning an entry for each parameter in
      turn; a repeated name keeps its first place and its last entry. */
  function Properties(params: seq<Parameter>): (d: Dict<PropertySchema>)
    ensures d.Valid()
  {
    if params == [] then EmptyDict()
    else
      var last := params[|params| - 1];
      Properties(params[..|params| - 1]).Put(last.name, SchemaOf(last))
  }

  /** `properties` has an entry for every parameter name and no other. */
  lemma {:induction false} PropertiesKeys(params: seq<Parameter>)
    ensures forall n :: n in Properties(params).entries <==> n in ParameterNames(params)
  {
    if params != [] {
      var init := params[..|params| - 1];
      PropertiesKeys(init);
      assert ParameterNames(params) == ParameterNames(init) + [params[|params| - 1].name];
    }
  }

  /** Dropping the last of a list of distinctly named parameters keeps the
      names distinct, and the dropped name is not among the others. */
  lemma DistinctInit(params: seq<Parameter>)
    requires params != [] && NoDuplicates(ParameterNames(params))
    ensures var n := |params| - 1;
            && ParameterNames(params) == ParameterNames(params[..n]) + [params[n].name]
            && NoDuplicates(ParameterNames(params[..n]))
            && params[n].name !in ParameterNames(params[..n])
  {
    var n := |params| - 1;
    var names := ParameterNames(params);
    assert ParameterNames(params[..n]) == names[..n];
    assert names == names[..n] + [names[n]];
  }

  /** With distinct parameter names, `properties` lists the parameters in
      declaration order, each with exactly its type and description. */
  lemma {:induction false} PropertiesOfDistinct(params: seq<Parameter>)
    requires NoDuplicates(ParameterNames(params))
    ensures Properties(params).keys == ParameterNames(params)
    ensures forall i | 0 <= i < |params| :: Properties(params).entries[params[i].name] == SchemaOf(params[i])
  {
    if params != [] {
      var n := |params| - 1;
      var init := params[..n];
      DistinctInit(params);
      PropertiesOfDistinct(init);
      PropertiesKeys(init);
      forall i | 0 <= i < n ensures params[i].name != params[n].name && init[i] == params[i] {
        assert ParameterNames(init)[i] == params[i].name;
      }
    }
  }

  /** `[p.name for p in params if p.required]` */
  function RequiredNames(params: seq<Parameter>): (names: seq<string>)
    ensures |names| <= |params|
    ensures forall n :: n in names <==> exists i | 0 <= i < |params| :: params[i].required && params[i].name == n
  {
    if params == [] then []
    else
      var rest := RequiredNames(params[1..]);
      assert forall i | 0 <= i < |params| - 1 :: params[1..][i] == params[i + 1];
      if params[0].required then [params[0].name] + rest else rest
  }

  /** `required` keeps declaration order: the required names of a list are
      those of its first part followed by those of the rest. */
  lemma {:induction false} RequiredNamesAppend(a: seq<Parameter>, b: seq<Parameter>)
    ensures RequiredNames(a + b) == RequiredNames(a) + RequiredNames(b)
  {
    if a != [] {
      assert (a + b)[1..] == a[1..] + b;
      RequiredNamesAppend(a[1..], b);
    } else {
      assert a + b == b;
    }
  }

  /** `Tool.json_description`: iterating the unset PARAMETERS of an abstract
      class raises a TypeError. */
  method JsonDescription(cls: ToolClass) returns (r: Result<ToolDescription>)
    ensures cls.parameters.None? ==> r == Failure(TypeError("'NoneType' object is not iterable"))
    ensures cls.parameters.Some? ==>
              r == Success(ToolDescription(cls.name, cls.description,
                                           InputSchema("object", Properties(cls.parameters.value), RequiredNames(cls.parameters.value))))
  {
    if cls.parameters.None? {
      return Failure(TypeError("'NoneType' object is not iterable"));
    }
    var params := cls.parameters.value;
    var properties := EmptyDict();
    var i := 0;
    while i < |params|
      invariant 0 <= i <= |params|
      invariant properties == Properties(params[..i])
    {
      assert params[..i + 1][..i] == params[..i];
      properties := properties.Put(params[i].name, SchemaOf(params[i]));
      i := i + 1;
    }
    assert params[..|params|] == params;
    var required := RequiredNames(params);
    return Success(ToolDescription(cls.name, cls.description, InputSchema("object", properties, required)));
  }
}
