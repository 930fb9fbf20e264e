/**
  The records of the code generator: a catalog entry (`RealFunction`) and its
  parameters (`RealFunction.Argument`), with the defaults of their Swift
  initialisers, and the shape of the names the catalog uses.
 */
module Records {

  datatype Option<T> = None | Some(value: T)

  /**
    One parameter of a catalog function: its name, its argument label (`_`
    for a positional parameter; none when the label is the name itself) and,
    for a parameter whose type does not follow the target type (an `Int`
    exponent), that fixed type.
   */
  datatype Argument = Argument(name: string, argumentLabel: Option<string>, fixedType: Option<string>)

  /**
    A catalog entry: the function's name, the name of its `simd` library
    counterpart when one exists, and its parameters in declaration order.
   */
  datatype RealFunction = RealFunction(name: string, simdName: Option<string>, arguments: seq<Argument>)

  /** `Argument.init(name:label:type:)`: label and type default to none. */
  function Arg(name: string, argumentLabel: Option<string> := None, fixedType: Option<string> := None): Argument
  {
    Argument(name, argumentLabel, fixedType)
  }

  /** The default parameter list: one positional `x` of the target type. */
  function DefaultArguments(): seq<Argument>
  {
    [Arg("x", argumentLabel := Some("_"))]
  }

  /** `RealFunction.init(name:simdName:arguments:)` with its defaults. */
  function Func(name: string, simdName: Option<string> := None, arguments: seq<Argument> := DefaultArguments()): RealFunction
  {
    RealFunction(name, simdName, arguments)
  }

  predicate IsIdentifierChar(c: char)
  {
    'a' <= c <= 'z' || 'A' <= c <= 'Z' || '0' <= c <= '9' || c == '_'
  }

  /** A Swift identifier (letters, digits and `_`, not starting with a digit). */
  predicate IsIdentifier(s: string)
  {
    |s| > 0 && !('0' <= s[0] <= '9') && forall k :: 0 <= k < |s| ==> IsIdentifierChar(s[k])
  }

  /** A type name as the generator spells it: `Int`, `Self`, `Float`, `SIMD16<Double>`. */
  predicate IsTypeName(s: string)
  {
    |s| > 0 && forall k :: 0 <= k < |s| ==> IsIdentifierChar(s[k]) || s[k] == '<' || s[k] == '>'
  }

  predicate WellFormedArgument(a: Argument)
  {
    && IsIdentifier(a.name)
    && (a.argumentLabel.Some? ==> IsIdentifier(a.argumentLabel.value))
    && (a.fixedType.Some? ==> IsTypeName(a.fixedType.value))
  }

  /**
    The names in a catalog entry are identifiers, its fixed types are type
    names, and it has at least one parameter.
   */
  predicate WellFormed(f: RealFunction)
  {
    && IsIdentifier(f.name)
    && |f.arguments| > 0
    && (f.simdName.Some? ==> IsIdentifier(f.simdName.value))
    && forall k :: 0 <= k < |f.arguments| ==> WellFormedArgument(f.arguments[k])
  }
}
