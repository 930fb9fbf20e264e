/**
  `RealFunctionsGenerator`: the three function catalogs and the text of the
  `RealFunctions` implementations for a SIMD type. Every catalog entry becomes
  one `public static func`: either an element-wise loop over the lanes, or a
  call into Apple's `simd` library guarded by `#if canImport(simd)` that keeps
  the loop under `#else`.

  A Swift multi-line string literal is modelled as the list of its lines
  (with the indentation of the closing delimiter already removed) joined by
  newlines; a multi-line value interpolated on a line of its own becomes one
  entry of that list.
 */
module RealFunctionsGenerator {
  import opened Text
  import opened Records

  // ---------------------------------------------------------------------
  // The catalogs
  // ---------------------------------------------------------------------

  /** A positional parameter `_ name` of the target type. */
  function Positional(name: string): Argument
  {
    Arg(name, argumentLabel := Some("_"))
  }

  /** A positional `Int` parameter (the exponent of `pow` and the index of `root`). */
  function PositionalInt(name: string): Argument
  {
    Arg(name, argumentLabel := Some("_"), fixedType := Some("Int"))
  }

  /** The functions of the `ElementaryFunctions` protocol, in declaration order. */
  function ElementaryFunctions(): (c: seq<RealFunction>)
    ensures |c| == 20
  {
    [ Func("exp", simdName := Some("exp")),
      Func("expMinusOne", simdName := Some("expm1")),
      Func("cosh", simdName := Some("cosh")),
      Func("sinh", simdName := Some("sinh")),
      Func("tanh", simdName := Some("tanh")),
      Func("cos", simdName := Some("cos")),
      Func("sin", simdName := Some("sin")),
      Func("tan", simdName := Some("tan")),
      Func("log", simdName := Some("log")),
      Func("log", simdName := Some("log1p"), arguments := [Arg("x", argumentLabel := Some("onePlus"))]),
      Func("acosh", simdName := Some("acosh")),
      Func("asinh", simdName := Some("asinh")),
      Func("atanh", simdName := Some("atanh")),
      Func("acos", simdName := Some("acos")),
      Func("asin", simdName := Some("asin")),
      Func("atan", simdName := Some("atan")),
      Func("pow", simdName := Some("pow"), arguments := [Positional("x"), PositionalInt("n")]),
      Func("pow", simdName := Some("pow"), arguments := [Positional("x"), Positional("y")]),
      Func("sqrt"),
      Func("root", arguments := [Positional("x"), PositionalInt("n")]) ]
  }

  /** The functions of the `RealFunctions` protocol, in declaration order. */
  function RealFunctions(): (c: seq<RealFunction>)
    ensures |c| == 10
  {
    [ Func("atan2", simdName := Some("atan2"), arguments := [Arg("y"), Arg("x")]),
      Func("erf", simdName := Some("erf")),
      Func("erfc", simdName := Some("erfc")),
      Func("exp2", simdName := Some("exp2")),
      Func("exp10", simdName := Some("exp10")),
      Func("hypot", simdName := Some("hypot"), arguments := [Positional("x"), Positional("y")]),
      Func("gamma", simdName := Some("tgamma")),
      Func("log2", simdName := Some("log2")),
      Func("log10", simdName := Some("log10")),
      Func("logGamma", simdName := Some("lgamma")) ]
  }

  /** The functions every floating-point lane type has. */
  function FloatingPointFunctions(): (c: seq<RealFunction>)
    ensures |c| == 1
  {
    [ Func("abs", simdName := Some("simd_abs")) ]
  }

  lemma DefaultArgumentsWellFormed()
    ensures forall k :: 0 <= k < |DefaultArguments()| ==> WellFormedArgument(DefaultArguments()[k])
  {
    assert IsIdentifier("x") && IsIdentifier("_");
  }

  lemma ElementaryFunctionsWellFormed()
    ensures forall k :: 0 <= k < |ElementaryFunctions()| ==> WellFormed(ElementaryFunctions()[k])
  {
    forall k | 0 <= k < |ElementaryFunctions()| ensures WellFormed(ElementaryFunctions()[k]) {
      ElementaryFunctionWellFormed(k);
    }
  }

  lemma ElementaryFunctionWellFormed(k: nat)
    requires k < |ElementaryFunctions()|
    ensures WellFormed(ElementaryFunctions()[k])
  {
    if k < 3 {
      ElementaryWellFormed0(k);
    } else if k < 6 {
      ElementaryWellFormed1(k);
    } else if k < 9 {
      ElementaryWellFormed2(k);
    } else if k < 12 {
      ElementaryWellFormed3(k);
    } else if k < 15 {
      ElementaryWellFormed4(k);
    } else if k < 18 {
      ElementaryWellFormed5(k);
    } else {
      ElementaryWellFormed6(k);
    }
  }

  // ElementaryWellFormed0 to ElementaryWellFormed6 split the table by position only to keep each proof small.
  lemma ElementaryWellFormed0(k: nat)
    requires 0 <= k < 3
    ensures WellFormed(ElementaryFunctions()[k])
  {
    var e := ElementaryFunctions();
    DefaultArgumentsWellFormed();
    if k == 0 {
      assert WellFormed(e[0]);
    } else if k == 1 {
      assert WellFormed(e[1]);
    } else {
      assert WellFormed(e[2]);
    }
  }

  lemma ElementaryWellFormed1(k: nat)
    requires 3 <= k < 6
    ensures WellFormed(ElementaryFunctions()[k])
  {
    var e := ElementaryFunctions();
    DefaultArgumentsWellFormed();
    if k == 3 {
      assert WellFormed(e[3]);
    } else if k == 4 {
      assert WellFormed(e[4]);
    } else {
      assert WellFormed(e[5]);
    }
  }

  lemma ElementaryWellFormed2(k: nat)
    requires 6 <= k < 9
    ensures WellFormed(ElementaryFunctions()[k])
  {
    var e := ElementaryFunctions();
    DefaultArgumentsWellFormed();
    if k == 6 {
      assert WellFormed(e[6]);
    } else if k == 7 {
      assert WellFormed(e[7]);
    } else {
      assert WellFormed(e[8]);
    }
  }

  lemma ElementaryWellFormed3(k: nat)
    requires 9 <= k < 12
    ensures WellFormed(ElementaryFunctions()[k])
  {
    var e := ElementaryFunctions();
    DefaultArgumentsWellFormed();
    if k == 9 {
      assert WellFormed(e[9]);
    } else if k == 10 {
      assert WellFormed(e[10]);
    } else {
      assert WellFormed(e[11]);
    }
  }

  lemma ElementaryWellFormed4(k: nat)
    requires 12 <= k < 15
    ensures WellFormed(ElementaryFunctions()[k])
  {
    var e := ElementaryFunctions();
    DefaultArgumentsWellFormed();
    if k == 12 {
      assert WellFormed(e[12]);
    } else if k == 13 {
      assert WellFormed(e[13]);
    } else {
      assert WellFormed(e[14]);
    }
  }

  lemma ElementaryWellFormed5(k: nat)
    requires 15 <= k < 18
    ensures WellFormed(ElementaryFunctions()[k])
  {
    var e := ElementaryFunctions();
    DefaultArgumentsWellFormed();
    if k == 15 {
      assert WellFormed(e[15]);
    } else if k == 16 {
      assert WellFormed(e[16]);
    } else {
      assert WellFormed(e[17]);
    }
  }

  lemma ElementaryWellFormed6(k: nat)
    requires 18 <= k < 20
    ensures WellFormed(ElementaryFunctions()[k])
  {
    var e := ElementaryFunctions();
    DefaultArgumentsWellFormed();
    if k == 18 {
      assert WellFormed(e[18]);
    } else {
      assert WellFormed(e[19]);
    }
  }

  lemma RealFunctionsWellFormed()
    ensures forall k :: 0 <= k < |RealFunctions()| ==> WellFormed(RealFunctions()[k])
  {
    forall k | 0 <= k < |RealFunctions()| ensures WellFormed(RealFunctions()[k]) {
      RealFunctionWellFormed(k);
    }
  }

  lemma RealFunctionWellFormed(k: nat)
    requires k < |RealFunctions()|
    ensures WellFormed(RealFunctions()[k])
  {
    if k < 3 {
      RealWellFormed0(k);
    } else if k < 6 {
      RealWellFormed1(k);
    } else if k < 8 {
      RealWellFormed2(k);
    } else {
      RealWellFormed3(k);
    }
  }

  // RealWellFormed0 to RealWellFormed3 split the table by position only to keep each proof small.
  lemma RealWellFormed0(k: nat)
    requires 0 <= k < 3
    ensures WellFormed(RealFunctions()[k])
  {
    var r := RealFunctions();
    DefaultArgumentsWellFormed();
    if k == 0 {
      assert WellFormed(r[0]);
    } else if k == 1 {
      assert WellFormed(r[1]);
    } else {
      assert WellFormed(r[2]);
    }
  }

  lemma RealWellFormed1(k: nat)
    requires 3 <= k < 6
    ensures WellFormed(RealFunctions()[k])
  {
    var r := RealFunctions();
    DefaultArgumentsWellFormed();
    if k == 3 {
      assert WellFormed(r[3]);
    } else if k == 4 {
      assert WellFormed(r[4]);
    } else {
      assert WellFormed(r[5]);
    }
  }

  lemma RealWellFormed2(k: nat)
    requires 6 <= k < 8
    ensures WellFormed(RealFunctions()[k])
  {
    var r := RealFunctions();
    DefaultArgumentsWellFormed();
    if k == 6 {
      assert WellFormed(r[6]);
    } else {
      assert WellFormed(r[7]);
    }
  }

  lemma RealWellFormed3(k: nat)
    requires 8 <= k < 10
    ensures WellFormed(RealFunctions()[k])
  {
    var r := RealFunctions();
    DefaultArgumentsWellFormed();
    if k == 8 {
      assert WellFormed(r[8]);
    } else {
      assert WellFormed(r[9]);
    }
  }

  /** Every catalog entry has identifier names, type-name fixed types and at least one parameter. */
  lemma CatalogWellFormed()
    ensures forall k :: 0 <= k < |Catalog()| ==> WellFormed(Catalog()[k])
  {
    ElementaryFunctionsWellFormed();
    RealFunctionsWellFormed();
    DefaultArgumentsWellFormed();
    assert IsIdentifier("abs") && IsIdentifier("simd_abs");
    assert WellFormed(FloatingPointFunctions()[0]);
  }

  /** All 31 entries, catalog after catalog. */
  function Catalog(): (c: seq<RealFunction>)
    ensures |c| == 31
  {
    ElementaryFunctions() + RealFunctions() + FloatingPointFunctions()
  }

  /** Only `sqrt` and `root` lack a `simd` counterpart. */
  lemma WithoutSimdName()
    ensures forall k :: 0 <= k < |Catalog()| ==>
      (Catalog()[k].simdName.None? <==> Catalog()[k].name == "sqrt" || Catalog()[k].name == "root")
  {
    var e, r, f := ElementaryFunctions(), RealFunctions(), FloatingPointFunctions();
    ElementarySimdNames();
    RealSimdNames();
    assert SimdNameUnlessRoot(f);
    SimdNameUnlessRootConcat(e, r);
    SimdNameUnlessRootConcat(e + r, f);
  }

  /** In `fs`, exactly `sqrt` and `root` lack a `simd` counterpart. */
  predicate SimdNameUnlessRoot(fs: seq<RealFunction>)
  {
    forall k :: 0 <= k < |fs| ==> (fs[k].simdName.None? <==> fs[k].name == "sqrt" || fs[k].name == "root")
  }

  lemma ElementarySimdNames()
    ensures SimdNameUnlessRoot(ElementaryFunctions())
  {
  }

  lemma RealSimdNames()
    ensures SimdNameUnlessRoot(RealFunctions())
  {
  }

  lemma SimdNameUnlessRootConcat(a: seq<RealFunction>, b: seq<RealFunction>)
    requires SimdNameUnlessRoot(a) && SimdNameUnlessRoot(b)
    ensures SimdNameUnlessRoot(a + b)
  {
    forall k | 0 <= k < |a + b| ensures ((a + b)[k].simdName.None? <==> (a + b)[k].name == "sqrt" || (a + b)[k].name == "root") {
      if k >= |a| {
        assert (a + b)[k] == b[k - |a|];
      }
    }
  }

  // ---------------------------------------------------------------------
  // Argument lists
  // ---------------------------------------------------------------------

  /** The declared type of a parameter: its fixed type, or else the target type. */
  function ArgumentType(a: Argument, t: string): string
  {
    if a.fixedType.Some? then a.fixedType.value else t
  }

  /** One parameter of the declaration: `label name: T`, or `name: T` without a label. */
  function InterfaceArgument(a: Argument, t: string): string
  {
    match a.argumentLabel
    case Some(l) => l + " " + a.name + ": " + ArgumentType(a, t)
    case None => a.name + ": " + ArgumentType(a, t)
  }

  function InterfaceArguments(args: seq<Argument>, t: string): string
  {
    Join(seq(|args|, k requires 0 <= k < |args| => InterfaceArgument(args[k], t)), ", ")
  }

  /** One argument of the per-lane call; parameters of the target type are indexed by lane `i`. */
  function ImplementationArgument(a: Argument): string
  {
    var lane := if a.fixedType.None? then "[i]" else "";
    match a.argumentLabel
    case Some(l) => (if l == "_" then "" else l + ": ") + a.name + lane
    case None => a.name + ": " + a.name + lane
  }

  function ImplementationArguments(args: seq<Argument>): string
  {
    Join(seq(|args|, k requires 0 <= k < |args| => ImplementationArgument(args[k])), ", ")
  }

  const BroadcastPrefix := ".init(repeating: .init("

  /** One argument of the `simd` call: fixed-type parameters are broadcast to all lanes. */
  function AcceleratedArgument(a: Argument): string
  {
    if a.fixedType.Some? then BroadcastPrefix + a.name + "))" else a.name
  }

  function AcceleratedArguments(args: seq<Argument>): string
  {
    Join(seq(|args|, k requires 0 <= k < |args| => AcceleratedArgument(args[k])), ", ")
  }

  // ---------------------------------------------------------------------
  // Reading argument lists back
  // ---------------------------------------------------------------------

  /** A declared parameter as it reads in the declaration. */
  datatype Parameter = Parameter(argumentLabel: Option<string>, name: string, declaredType: string)

  /** Reads `label name: T` or `name: T`. */
  function ReadInterfaceArgument(s: string): Parameter
  {
    var colon := IndexOf(s, ':');
    var head := s[..colon];
    var space := IndexOf(head, ' ');
    var declared := s[Min(colon + 2, |s|)..];
    if space == |head| then Parameter(None, head, declared)
    else Parameter(Some(head[..space]), head[space + 1..], declared)
  }

  /** An argument of a call as it reads at the call site. */
  datatype CallArgument = CallArgument(callLabel: Option<string>, name: string, laneIndexed: bool)

  /**
    The label a call must spell for a parameter: none for `_`, the parameter's
    name when it has no separate label.
   */
  function CallLabel(a: Argument): Option<string>
  {
    match a.argumentLabel
    case None => Some(a.name)
    case Some(l) => if l == "_" then None else Some(l)
  }

  /** Reads `name`, `label: name`, each optionally followed by `[i]`. */
  function ReadImplementationArgument(s: string): CallArgument
  {
    var indexed := |s| >= 3 && s[|s| - 3..] == "[i]";
    ReadCallBody(if indexed then s[..|s| - 3] else s, indexed)
  }

  /** Reads `name` or `label: name`, the lane index already taken off. */
  function ReadCallBody(body: string, indexed: bool): CallArgument
  {
    var colon := IndexOf(body, ':');
    if colon == |body| then CallArgument(None, body, indexed)
    else CallArgument(Some(body[..colon]), body[Min(colon + 2, |body|)..], indexed)
  }

  /** An argument of a `simd` call: a name, possibly broadcast to all lanes. */
  datatype SimdArgument = SimdArgument(name: string, broadcast: bool)

  function ReadAcceleratedArgument(s: string): SimdArgument
  {
    if |s| >= |BroadcastPrefix| + 2 && StartsWith(s, BroadcastPrefix) && s[|s| - 2..] == "))"
    then SimdArgument(s[|BroadcastPrefix|..|s| - 2], true)
    else SimdArgument(s, false)
  }

  /** No character of `s` is `c`. */
  predicate Avoids(s: string, c: char)
  {
    forall k :: 0 <= k < |s| ==> s[k] != c
  }

  lemma IdentifierAvoids(s: string)
    requires IsIdentifier(s)
    ensures Avoids(s, ',') && Avoids(s, ':') && Avoids(s, ' ') && Avoids(s, '(') && Avoids(s, ']')
  {
  }

  lemma TypeNameAvoids(s: string)
    requires IsTypeName(s)
    ensures Avoids(s, ',') && Avoids(s, ':') && Avoids(s, ' ') && Avoids(s, '(')
  {
  }

  lemma AvoidsConcat(a: string, b: string, c: char)
    requires Avoids(a, c) && Avoids(b, c)
    ensures Avoids(a + b, c)
  {
  }

  /** Cutting `a + b` at the first `x`, when `a` has none and `b` starts with one, gives `a` back. */
  lemma CutAt(a: string, b: string, x: char)
    requires Avoids(a, x) && (|b| == 0 || b[0] == x)
    ensures IndexOf(a + b, x) == |a|
    ensures (a + b)[..|a|] == a && (a + b)[|a|..] == b
  {
    IndexOfAppend(a, b, x);
  }

  lemma InterfaceArgumentRoundTrip(a: Argument, t: string)
    requires WellFormedArgument(a) && IsTypeName(t)
    ensures ReadInterfaceArgument(InterfaceArgument(a, t)) == Parameter(a.argumentLabel, a.name, ArgumentType(a, t))
    ensures Avoids(InterfaceArgument(a, t), ',')
  {
    var ty := ArgumentType(a, t);
    assert IsTypeName(ty);
    match a.argumentLabel {
      case Some(l) => LabelledParameterRoundTrip(l, a.name, ty);
      case None => ParameterRoundTrip(a.name, ty);
    }
  }

  /** `name: T` reads back as no label, the name and the type. */
  lemma ParameterRoundTrip(name: string, ty: string)
    requires IsIdentifier(name) && IsTypeName(ty)
    ensures ReadInterfaceArgument(name + ": " + ty) == Parameter(None, name, ty)
    ensures Avoids(name + ": " + ty, ',')
  {
    var s := name + ": " + ty;
    IdentifierAvoids(name);
    TypeNameAvoids(ty);
    AvoidsConcat(name, ": ", ',');
    AvoidsConcat(name + ": ", ty, ',');
    assert s == name + (": " + ty);
    CutAt(name, ": " + ty, ':');
    assert s[|name| + 2..] == ty;
    CutAt(name, [], ' ');
    assert name + [] == name;
  }

  /** `label name: T` reads back as the label, the name and the type. */
  lemma LabelledParameterRoundTrip(l: string, name: string, ty: string)
    requires IsIdentifier(l) && IsIdentifier(name) && IsTypeName(ty)
    ensures ReadInterfaceArgument(l + " " + name + ": " + ty) == Parameter(Some(l), name, ty)
    ensures Avoids(l + " " + name + ": " + ty, ',')
  {
    var s := l + " " + name + ": " + ty;
    var head := l + " " + name;
    IdentifierAvoids(name);
    IdentifierAvoids(l);
    TypeNameAvoids(ty);
    AvoidsConcat(l, " ", ',');
    AvoidsConcat(l + " ", name, ',');
    AvoidsConcat(head, ": ", ',');
    AvoidsConcat(head + ": ", ty, ',');
    AvoidsConcat(l, " ", ':');
    AvoidsConcat(l + " ", name, ':');
    assert s == head + (": " + ty);
    CutAt(head, ": " + ty, ':');
    assert s[|head| + 2..] == ty;
    assert head == l + (" " + name);
    CutAt(l, " " + name, ' ');
    assert head[|l| + 1..] == name;
  }

  /** The text before the lane index of a per-lane call argument. */
  function CallPrefix(a: Argument): string
  {
    match a.argumentLabel
    case Some(l) => if l == "_" then "" else l + ": "
    case None => a.name + ": "
  }

  lemma CallPrefixShape(a: Argument)
    requires WellFormedArgument(a)
    ensures ImplementationArgument(a) == CallPrefix(a) + a.name + (if a.fixedType.None? then "[i]" else "")
    ensures Avoids(CallPrefix(a) + a.name, ',')
  {
    IdentifierAvoids(a.name);
    var body := CallPrefix(a) + a.name;
    match a.argumentLabel {
      case Some(l) =>
        if l == "_" {
          assert body == a.name;
        } else {
          IdentifierAvoids(l);
          AvoidsConcat(l, ": ", ',');
          AvoidsConcat(l + ": ", a.name, ',');
        }
      case None =>
        AvoidsConcat(a.name, ": ", ',');
        AvoidsConcat(a.name + ": ", a.name, ',');
    }
  }

  lemma ImplementationArgumentRoundTrip(a: Argument)
    requires WellFormedArgument(a)
    ensures ReadImplementationArgument(ImplementationArgument(a)) == CallArgument(CallLabel(a), a.name, a.fixedType.None?)
    ensures Avoids(ImplementationArgument(a), ',')
  {
    var body := CallPrefix(a) + a.name;
    CallPrefixShape(a);
    IdentifierAvoids(a.name);
    LaneIndexSuffix(body, a.fixedType.None?);
    if a.fixedType.None? {
      AvoidsConcat(body, "[i]", ',');
    }
    CallBodyRoundTrip(a, a.fixedType.None?);
  }

  /** The lane index `[i]` is read off exactly when it was written, when the body does not end in `]`. */
  lemma LaneIndexSuffix(body: string, indexed: bool)
    requires |body| > 0 && body[|body| - 1] != ']'
    ensures var s := body + (if indexed then "[i]" else "");
      && ((|s| >= 3 && s[|s| - 3..] == "[i]") <==> indexed)
      && (if indexed then s[..|s| - 3] else s) == body
  {
    var s := body + (if indexed then "[i]" else "");
    if indexed {
      assert s[|s| - 3..] == "[i]";
      assert s[..|s| - 3] == body;
    } else {
      assert s == body;
      if |s| >= 3 {
        assert s[|s| - 3..][2] == s[|s| - 1];
      }
    }
  }

  lemma CallBodyRoundTrip(a: Argument, indexed: bool)
    requires WellFormedArgument(a)
    ensures ReadCallBody(CallPrefix(a) + a.name, indexed) == CallArgument(CallLabel(a), a.name, indexed)
  {
    IdentifierAvoids(a.name);
    var body := CallPrefix(a) + a.name;
    match a.argumentLabel {
      case Some(l) =>
        if l == "_" {
          assert body == a.name;
          CutAt(a.name, [], ':');
          assert a.name + [] == a.name;
        } else {
          IdentifierAvoids(l);
          assert body == l + (": " + a.name);
          CutAt(l, ": " + a.name, ':');
          assert body[|l| + 2..] == a.name;
        }
      case None =>
        assert body == a.name + (": " + a.name);
        CutAt(a.name, ": " + a.name, ':');
        assert body[|a.name| + 2..] == a.name;
    }
  }

  lemma AcceleratedArgumentRoundTrip(a: Argument)
    requires WellFormedArgument(a)
    ensures ReadAcceleratedArgument(AcceleratedArgument(a)) == SimdArgument(a.name, a.fixedType.Some?)
    ensures Avoids(AcceleratedArgument(a), ',')
  {
    var s := AcceleratedArgument(a);
    IdentifierAvoids(a.name);
    if a.fixedType.Some? {
      assert s[..|BroadcastPrefix|] == BroadcastPrefix;
      assert s[|s| - 2..] == "))";
      assert s[|BroadcastPrefix|..|s| - 2] == a.name;
    } else if |s| >= |BroadcastPrefix| + 2 {
      NotStartsWith(s, BroadcastPrefix, 0);
    }
  }

  /** Reading back a list joined with `", "` from parts without a comma. */
  lemma ReadList(parts: seq<string>)
    requires |parts| > 0
    requires forall k :: 0 <= k < |parts| ==> Avoids(parts[k], ',')
    ensures Split(Join(parts, ", "), ", ") == parts
  {
    forall k | 0 <= k < |parts| ensures ", "[0] !in parts[k] {
      assert Avoids(parts[k], ',');
    }
    SplitJoin(parts, ", ");
  }

  /** The declaration lists every parameter, in order, with its label, name and declared type. */
  lemma InterfaceArgumentsInOrder(args: seq<Argument>, t: string)
    requires |args| > 0 && IsTypeName(t)
    requires forall k :: 0 <= k < |args| ==> WellFormedArgument(args[k])
    ensures var parts := Split(InterfaceArguments(args, t), ", ");
      && |parts| == |args|
      && forall k :: 0 <= k < |args| ==>
           ReadInterfaceArgument(parts[k]) == Parameter(args[k].argumentLabel, args[k].name, ArgumentType(args[k], t))
  {
    var parts := seq(|args|, k requires 0 <= k < |args| => InterfaceArgument(args[k], t));
    forall k | 0 <= k < |args|
      ensures Avoids(parts[k], ',')
      ensures ReadInterfaceArgument(parts[k]) == Parameter(args[k].argumentLabel, args[k].name, ArgumentType(args[k], t))
    {
      InterfaceArgumentRoundTrip(args[k], t);
    }
    ReadList(parts);
  }

  /**
    The per-lane call passes every parameter, in order, under the label the
    declaration demands, indexing by lane exactly the parameters of the target type.
   */
  lemma ImplementationArgumentsInOrder(args: seq<Argument>)
    requires |args| > 0
    requires forall k :: 0 <= k < |args| ==> WellFormedArgument(args[k])
    ensures var parts := Split(ImplementationArguments(args), ", ");
      && |parts| == |args|
      && forall k :: 0 <= k < |args| ==>
           ReadImplementationArgument(parts[k]) == CallArgument(CallLabel(args[k]), args[k].name, args[k].fixedType.None?)
  {
    var parts := seq(|args|, k requires 0 <= k < |args| => ImplementationArgument(args[k]));
    forall k | 0 <= k < |args|
      ensures Avoids(parts[k], ',')
      ensures ReadImplementationArgument(parts[k]) == CallArgument(CallLabel(args[k]), args[k].name, args[k].fixedType.None?)
    {
      ImplementationArgumentRoundTrip(args[k]);
    }
    ReadList(parts);
  }

  /** The `simd` call passes every parameter, in order, broadcasting exactly the fixed-type ones. */
  lemma AcceleratedArgumentsInOrder(args: seq<Argument>)
    requires |args| > 0
    requires forall k :: 0 <= k < |args| ==> WellFormedArgument(args[k])
    ensures var parts := Split(AcceleratedArguments(args), ", ");
      && |parts| == |args|
      && forall k :: 0 <= k < |args| ==>
           ReadAcceleratedArgument(parts[k]) == SimdArgument(args[k].name, args[k].fixedType.Some?)
  {
    var parts := seq(|args|, k requires 0 <= k < |args| => AcceleratedArgument(args[k]));
    forall k | 0 <= k < |args|
      ensures Avoids(parts[k], ',')
      ensures ReadAcceleratedArgument(parts[k]) == SimdArgument(args[k].name, args[k].fixedType.Some?)
    {
      AcceleratedArgumentRoundTrip(args[k]);
    }
    ReadList(parts);
  }

  // ---------------------------------------------------------------------
  // One function: the element-wise loop or the `simd` call
  // ---------------------------------------------------------------------

  const DeclarationPrefix := "    public static func "
  const SimdGuard := "    #if canImport(simd)"

  /** The declaration line shared by both forms. */
  function Declaration(f: RealFunction, t: string): string
  {
    DeclarationPrefix + f.name + "(" + InterfaceArguments(f.arguments, t) + ") -> " + t + " {"
  }

  /** The element-wise form: a loop over the lanes calling the scalar function. */
  function RegularImplementationLines(f: RealFunction, t: string): seq<string>
  {
    [ "    @_transparent",
      Declaration(f, t),
      "        var v = Self()",
      "        for i in v.indices {",
      "            v[i] = ." + f.name + "(" + ImplementationArguments(f.arguments) + ")",
      "        }",
      "        return v",
      "    }" ]
  }

  function RegularImplementation(f: RealFunction, t: string): string
  {
    JoinLines(RegularImplementationLines(f, t))
  }

  /** The guarded `simd` call that opens the accelerated form. */
  function SimdCallLines(f: RealFunction, simdName: string, t: string): seq<string>
  {
    [ SimdGuard,
      "    @_transparent",
      Declaration(f, t),
      "        simd." + simdName + "(" + AcceleratedArguments(f.arguments) + ")",
      "    }" ]
  }

  /** The accelerated form: the element-wise form is interpolated under `#else`. */
  function AcceleratedImplementation(f: RealFunction, simdName: string, t: string): string
  {
    JoinLines(SimdCallLines(f, simdName, t) + ["    #else", RegularImplementation(f, t), "    #endif"])
  }

  /** `realFunctionTemplate(for:type:simdAccelerated:)`. */
  function RealFunctionTemplate(f: RealFunction, t: string, simdAccelerated: bool): string
  {
    if !simdAccelerated then RegularImplementation(f, t)
    else match f.simdName
      case None => RegularImplementation(f, t)
      case Some(simdName) => AcceleratedImplementation(f, simdName, t)
  }

  /** The lines of the template, with the interpolated element-wise form spliced in. */
  function TemplateLines(f: RealFunction, t: string, simdAccelerated: bool): seq<string>
  {
    if simdAccelerated && f.simdName.Some? then
      SimdCallLines(f, f.simdName.value, t) + ["    #else"] + RegularImplementationLines(f, t) + ["    #endif"]
    else
      RegularImplementationLines(f, t)
  }

  lemma TemplateText(f: RealFunction, t: string, simdAccelerated: bool)
    ensures RealFunctionTemplate(f, t, simdAccelerated) == JoinLines(TemplateLines(f, t, simdAccelerated))
  {
    if simdAccelerated && f.simdName.Some? {
      var head := SimdCallLines(f, f.simdName.value, t) + ["    #else"];
      assert SimdCallLines(f, f.simdName.value, t) + ["    #else", RegularImplementation(f, t), "    #endif"]
        == head + [RegularImplementation(f, t)] + ["    #endif"];
      Splice(head, RegularImplementationLines(f, t), ["    #endif"]);
    }
  }

  /**
    The template opens with the `simd` guard exactly when acceleration is on
    and the function has a `simd` counterpart; otherwise it is the element-wise
    form, and the accelerated form carries the whole element-wise form between
    its `#else` and `#endif` lines.
   */
  lemma TemplateForm(f: RealFunction, t: string, simdAccelerated: bool)
    ensures StartsWith(RealFunctionTemplate(f, t, simdAccelerated), SimdGuard)
      <==> simdAccelerated && f.simdName.Some?
    ensures !(simdAccelerated && f.simdName.Some?) ==>
      RealFunctionTemplate(f, t, simdAccelerated) == RegularImplementation(f, t)
    ensures simdAccelerated && f.simdName.Some? ==>
      RealFunctionTemplate(f, t, simdAccelerated)
        == JoinLines(SimdCallLines(f, f.simdName.value, t) + ["    #else"])
           + "\n" + RegularImplementation(f, t) + "\n" + "    #endif"
  {
    var text := RealFunctionTemplate(f, t, simdAccelerated);
    if simdAccelerated && f.simdName.Some? {
      var head := SimdCallLines(f, f.simdName.value, t) + ["    #else"];
      var r := RegularImplementation(f, t);
      assert SimdCallLines(f, f.simdName.value, t) + ["    #else", r, "    #endif"] == head + [r, "    #endif"];
      JoinAppend(head, [r, "    #endif"], "\n");
      var lines := SimdCallLines(f, f.simdName.value, t) + ["    #else", r, "    #endif"];
      assert text == lines[0] + "\n" + JoinLines(lines[1..]);
      assert text[..|SimdGuard|] == SimdGuard;
    } else {
      var lines := RegularImplementationLines(f, t);
      assert text == lines[0] + "\n" + JoinLines(lines[1..]);
      NotStartsWith(text, SimdGuard, 4);
    }
  }

  /** Functions without a `simd` counterpart get the element-wise form even when acceleration is on. */
  lemma SqrtAndRootAlwaysElementWise(t: string, simdAccelerated: bool)
    ensures forall k :: 0 <= k < |Catalog()| && (Catalog()[k].name == "sqrt" || Catalog()[k].name == "root") ==>
      RealFunctionTemplate(Catalog()[k], t, simdAccelerated) == RegularImplementation(Catalog()[k], t)
  {
    WithoutSimdName();
    forall k | 0 <= k < |Catalog()| && (Catalog()[k].name == "sqrt" || Catalog()[k].name == "root")
      ensures RealFunctionTemplate(Catalog()[k], t, simdAccelerated) == RegularImplementation(Catalog()[k], t)
    {
      TemplateForm(Catalog()[k], t, simdAccelerated);
    }
  }

  /**
    A record built with the initialiser's defaults declares one positional
    `x` of the target type, indexes it by lane in the loop, passes it bare to
    `simd`, and (having no `simd` counterpart) is always rendered element-wise.
   */
  lemma DefaultRecordRendering(name: string, t: string, simdAccelerated: bool)
    ensures InterfaceArguments(Func(name).arguments, t) == "_ x: " + t
    ensures ImplementationArguments(Func(name).arguments) == "x[i]"
    ensures AcceleratedArguments(Func(name).arguments) == "x"
    ensures RealFunctionTemplate(Func(name), t, simdAccelerated) == RegularImplementation(Func(name), t)
  {
    var parts := seq(1, k requires 0 <= k < 1 => InterfaceArgument(Arg("x", argumentLabel := Some("_")), t));
    assert parts == [InterfaceArgument(Arg("x", argumentLabel := Some("_")), t)];
    TemplateForm(Func(name), t, simdAccelerated);
  }

  // ---------------------------------------------------------------------
  // Reading the declared function back from a template
  // ---------------------------------------------------------------------

  predicate IsDeclaration(line: string)
  {
    StartsWith(line, DeclarationPrefix)
  }

  /** The name a declaration line declares: the text between the prefix and `(`. */
  function DeclaredName(line: string): string
    requires IsDeclaration(line)
  {
    var rest := line[|DeclarationPrefix|..];
    rest[..IndexOf(rest, '(')]
  }

  /** Every declaration in `block` declares `name`. */
  predicate OnlyDeclares(block: seq<string>, name: string)
  {
    forall k :: 0 <= k < |block| && IsDeclaration(block[k]) ==> DeclaredName(block[k]) == name
  }

  /** Every declaration in `block` declares `name`, and there is at least one. */
  predicate Declares(block: seq<string>, name: string)
  {
    && (exists k :: 0 <= k < |block| && IsDeclaration(block[k]))
    && OnlyDeclares(block, name)
  }

  lemma OnlyDeclaresConcat(a: seq<string>, b: seq<string>, name: string)
    requires OnlyDeclares(a, name) && OnlyDeclares(b, name)
    ensures OnlyDeclares(a + b, name)
  {
    forall k | 0 <= k < |a + b| && IsDeclaration((a + b)[k]) ensures DeclaredName((a + b)[k]) == name {
      if k < |a| {
        assert (a + b)[k] == a[k];
      } else {
        assert (a + b)[k] == b[k - |a|];
      }
    }
  }

  lemma DeclarationReads(f: RealFunction, t: string)
    requires IsIdentifier(f.name)
    ensures IsDeclaration(Declaration(f, t)) && DeclaredName(Declaration(f, t)) == f.name
  {
    var line := Declaration(f, t);
    var tail := "(" + InterfaceArguments(f.arguments, t) + ") -> " + t + " {";
    assert line == DeclarationPrefix + (f.name + tail);
    assert line[..|DeclarationPrefix|] == DeclarationPrefix;
    assert line[|DeclarationPrefix|..] == f.name + tail;
    IdentifierAvoids(f.name);
    CutAt(f.name, tail, '(');
  }

  /** A line whose fifth character is not `p` declares nothing. */
  lemma NotDeclaration(line: string)
    requires |line| > 4 && line[4] != 'p'
    ensures !IsDeclaration(line)
  {
    NotStartsWith(line, DeclarationPrefix, 4);
  }

  lemma RegularDeclares(f: RealFunction, t: string)
    requires IsIdentifier(f.name)
    ensures Declares(RegularImplementationLines(f, t), f.name)
  {
    var regular := RegularImplementationLines(f, t);
    DeclarationReads(f, t);
    forall k | 0 <= k < |regular| && k != 1 ensures !IsDeclaration(regular[k]) {
      NotDeclaration(regular[k]);
    }
    assert IsDeclaration(regular[1]);
  }

  lemma SimdCallDeclares(f: RealFunction, simdName: string, t: string)
    requires IsIdentifier(f.name)
    ensures Declares(SimdCallLines(f, simdName, t), f.name)
  {
    var simd := SimdCallLines(f, simdName, t);
    DeclarationReads(f, t);
    forall k | 0 <= k < |simd| && k != 2 ensures !IsDeclaration(simd[k]) {
      NotDeclaration(simd[k]);
    }
    assert IsDeclaration(simd[2]);
  }

  /** Each form declares the catalog entry's function, and nothing else. */
  lemma TemplateDeclares(f: RealFunction, t: string, simdAccelerated: bool)
    requires IsIdentifier(f.name)
    ensures Declares(TemplateLines(f, t, simdAccelerated), f.name)
  {
    RegularDeclares(f, t);
    if simdAccelerated && f.simdName.Some? {
      SimdCallDeclares(f, f.simdName.value, t);
      ConditionalDeclares(SimdCallLines(f, f.simdName.value, t), RegularImplementationLines(f, t), f.name);
    }
  }

  /** Wrapping two forms in `#else` and `#endif` declares what they declare. */
  lemma ConditionalDeclares(simd: seq<string>, regular: seq<string>, name: string)
    requires Declares(simd, name) && OnlyDeclares(regular, name)
    ensures Declares(simd + ["    #else"] + regular + ["    #endif"], name)
  {
    NotDeclaration("    #else");
    NotDeclaration("    #endif");
    OnlyDeclaresConcat(simd, ["    #else"], name);
    OnlyDeclaresConcat(simd + ["    #else"], regular, name);
    OnlyDeclaresConcat(simd + ["    #else"] + regular, ["    #endif"], name);
    var k :| 0 <= k < |simd| && IsDeclaration(simd[k]);
    assert (simd + ["    #else"] + regular + ["    #endif"])[k] == simd[k];
  }

  /** Every line of a template is indented. */
  lemma TemplateLinesIndented(f: RealFunction, t: string, simdAccelerated: bool)
    ensures forall k :: 0 <= k < |TemplateLines(f, t, simdAccelerated)| ==>
      |TemplateLines(f, t, simdAccelerated)[k]| > 0 && TemplateLines(f, t, simdAccelerated)[k][0] == ' '
  {
  }

  // ---------------------------------------------------------------------
  // A catalog's code: its templates joined by a blank line
  // ---------------------------------------------------------------------

  function CatalogCode(c: seq<RealFunction>, t: string, simdAccelerated: bool): string
  {
    Join(seq(|c|, k requires 0 <= k < |c| => RealFunctionTemplate(c[k], t, simdAccelerated)), "\n\n")
  }

  /** The templates of a catalog, one block of lines per entry, in catalog order. */
  function Blocks(c: seq<RealFunction>, t: string, simdAccelerated: bool): seq<seq<string>>
  {
    seq(|c|, k requires 0 <= k < |c| => TemplateLines(c[k], t, simdAccelerated))
  }

  /** The lines of a catalog's code: the blocks with an empty line between neighbours. */
  function CodeLines(c: seq<RealFunction>, t: string, simdAccelerated: bool): seq<string>
  {
    Join(Blocks(c, t, simdAccelerated), [""])
  }

  lemma CatalogCodeText(c: seq<RealFunction>, t: string, simdAccelerated: bool)
    ensures CatalogCode(c, t, simdAccelerated) == JoinLines(CodeLines(c, t, simdAccelerated))
  {
    var blocks := Blocks(c, t, simdAccelerated);
    forall k | 0 <= k < |c|
      ensures RealFunctionTemplate(c[k], t, simdAccelerated) == JoinLines(blocks[k])
      ensures |blocks[k]| > 0
    {
      TemplateText(c[k], t, simdAccelerated);
    }
    assert seq(|c|, k requires 0 <= k < |c| => RealFunctionTemplate(c[k], t, simdAccelerated))
      == seq(|blocks|, k requires 0 <= k < |blocks| => JoinLines(blocks[k]));
    BlankLineJoin(blocks);
  }

  /**
    Reading a catalog's code back at its empty lines gives one block per
    entry, in catalog order, and block `k` declares entry `k`'s function.
   */
  lemma CatalogCodeOnePerEntry(c: seq<RealFunction>, t: string, simdAccelerated: bool)
    requires |c| > 0
    requires forall k :: 0 <= k < |c| ==> WellFormed(c[k])
    ensures var blocks := Split(CodeLines(c, t, simdAccelerated), [""]);
      && |blocks| == |c|
      && forall k :: 0 <= k < |c| ==> Declares(blocks[k], c[k].name)
  {
    var blocks := Blocks(c, t, simdAccelerated);
    forall k | 0 <= k < |c|
      ensures [""][0] !in blocks[k]
      ensures Declares(blocks[k], c[k].name)
    {
      TemplateLinesIndented(c[k], t, simdAccelerated);
      TemplateDeclares(c[k], t, simdAccelerated);
    }
    SplitJoin(blocks, [""]);
  }

  // ---------------------------------------------------------------------
  // The extension file
  // ---------------------------------------------------------------------

  const AcceleratedHeaderLines := ["#if canImport(simd)", "import simd", "#endif"]

  /** `where Scalar: P` when where-clauses are requested. */
  function WhereClause(whereClause: bool, protocol: string): string
  {
    if whereClause then " where Scalar: " + protocol else ""
  }

  /** The line that opens one of the three extensions. */
  function Opening(objectType: string, whereClause: bool, protocol: string): string
  {
    "extension " + objectType + WhereClause(whereClause, protocol) + " {"
  }

  /** A line indented one level (four spaces) inside an extension. */
  function Indented(line: string): string
  {
    "    " + line
  }

  /** The commented-out `signGamma`, which cannot return a vector of signs. */
  const SignGammaNote := [
    Indented("// signGamma is missing here since we cannot return a SIMDX<FloatingPointSign> Otherwise we could also conform SIMD types to the RealFunctions protocol."),
    Indented("//    @_transparent"),
    Indented("//    public static func signGamma(_ x: Self) -> SIMDX<FloatingPointSign> {"),
    Indented("//        fatalError()"),
    Indented("//    }")]

  /** `realFunctionsExtension(objectType:type:whereClause:simdAccelerated:)`. */
  function RealFunctionsExtension(objectType: string, t: string, whereClause: bool, simdAccelerated: bool): string
  {
    JoinLines(
      [ if simdAccelerated then JoinLines(AcceleratedHeaderLines) else "",
        "import RealModule",
        "",
        "// MARK: ElementaryFunctions",
        Opening(objectType, whereClause, "ElementaryFunctions"),
        CatalogCode(ElementaryFunctions(), t, simdAccelerated),
        "}",
        "",
        "// MARK: RealFunctions",
        Opening(objectType, whereClause, "RealFunctions"),
        CatalogCode(RealFunctions(), t, simdAccelerated),
        "" ]
      + SignGammaNote
      + [ "}",
          "",
          "// MARK: FloatingPointFunctions",
          Opening(objectType, whereClause, "Real"),
          CatalogCode(FloatingPointFunctions(), t, simdAccelerated),
          "}" ])
  }

  /** The first lines of the file: the `simd` import when accelerated, an empty line otherwise. */
  function HeaderLines(simdAccelerated: bool): seq<string>
  {
    if simdAccelerated then AcceleratedHeaderLines else [""]
  }

  /** The lines from the end of the header to the opening of the elementary-functions extension. */
  function ElementaryPreamble(objectType: string, whereClause: bool): seq<string>
  {
    ["import RealModule", "", "// MARK: ElementaryFunctions", Opening(objectType, whereClause, "ElementaryFunctions")]
  }

  /** The lines that close the elementary-functions extension and open the real-functions one. */
  function RealPreamble(objectType: string, whereClause: bool): seq<string>
  {
    ["}", "", "// MARK: RealFunctions", Opening(objectType, whereClause, "RealFunctions")]
  }

  /** The `signGamma` note, then the lines that open the floating-point-functions extension. */
  function FloatingPointPreamble(objectType: string, whereClause: bool): seq<string>
  {
    [""] + SignGammaNote + ["}", "", "// MARK: FloatingPointFunctions", Opening(objectType, whereClause, "Real")]
  }

  /** The lines of the extension file, with the header and every catalog's code spliced in. */
  function ExtensionLines(objectType: string, t: string, whereClause: bool, simdAccelerated: bool): seq<string>
  {
    HeaderLines(simdAccelerated)
    + (ElementaryPreamble(objectType, whereClause)
    + (CodeLines(ElementaryFunctions(), t, simdAccelerated)
    + (RealPreamble(objectType, whereClause)
    + (CodeLines(RealFunctions(), t, simdAccelerated)
    + (FloatingPointPreamble(objectType, whereClause)
    + (CodeLines(FloatingPointFunctions(), t, simdAccelerated)
    + ["}"]))))))
  }

  lemma CodeLinesNonEmpty(c: seq<RealFunction>, t: string, simdAccelerated: bool)
    requires |c| > 0
    ensures |CodeLines(c, t, simdAccelerated)| > 0
  {
    var blocks := Blocks(c, t, simdAccelerated);
    assert |blocks[0]| > 0;
    JoinNonEmpty(blocks, [""]);
  }

  /** The extension literal, entry by entry, grouped as the line view groups it. */
  lemma ExtensionEntries(objectType: string, t: string, whereClause: bool, simdAccelerated: bool)
    ensures RealFunctionsExtension(objectType, t, whereClause, simdAccelerated)
      == JoinLines(
           [if simdAccelerated then JoinLines(AcceleratedHeaderLines) else ""]
           + (ElementaryPreamble(objectType, whereClause)
           + ([CatalogCode(ElementaryFunctions(), t, simdAccelerated)]
           + (RealPreamble(objectType, whereClause)
           + ([CatalogCode(RealFunctions(), t, simdAccelerated)]
           + (FloatingPointPreamble(objectType, whereClause)
           + ([CatalogCode(FloatingPointFunctions(), t, simdAccelerated)]
           + ["}"])))))))
  {
    var sa := simdAccelerated;
    Regroup(if sa then JoinLines(AcceleratedHeaderLines) else "",
      Opening(objectType, whereClause, "ElementaryFunctions"), CatalogCode(ElementaryFunctions(), t, sa),
      Opening(objectType, whereClause, "RealFunctions"), CatalogCode(RealFunctions(), t, sa),
      Opening(objectType, whereClause, "Real"), CatalogCode(FloatingPointFunctions(), t, sa),
      SignGammaNote);
  }

  /** The literal's lines, grouped into header, preambles and catalog code. */
  lemma Regroup(h: string, o1: string, ce: string, o2: string, cr: string, o3: string, cf: string, note: seq<string>)
    ensures [h, "import RealModule", "", "// MARK: ElementaryFunctions", o1, ce, "}", "", "// MARK: RealFunctions", o2, cr, ""]
            + note + ["}", "", "// MARK: FloatingPointFunctions", o3, cf, "}"]
      == [h]
         + (["import RealModule", "", "// MARK: ElementaryFunctions", o1]
         + ([ce]
         + (["}", "", "// MARK: RealFunctions", o2]
         + ([cr]
         + (([""] + note + ["}", "", "// MARK: FloatingPointFunctions", o3])
         + ([cf] + ["}"]))))))
  {
    var back := ["}", "", "// MARK: FloatingPointFunctions", o3, cf, "}"];
    var front := [h, "import RealModule", "", "// MARK: ElementaryFunctions", o1, ce, "}", "", "// MARK: RealFunctions", o2, cr, ""];
    assert [""] + note + back == ([""] + note + ["}", "", "// MARK: FloatingPointFunctions", o3]) + ([cf] + ["}"]);
    assert front == [h] + (["import RealModule", "", "// MARK: ElementaryFunctions", o1] + ([ce] + (["}", "", "// MARK: RealFunctions", o2] + [cr] + [""])));
  }

  /**
    A multi-line value interpolated as one line, ahead of lines whose text is
    unchanged, gives the same text as its own lines in its place.
   */
  lemma SpliceChunk(front: seq<string>, x: string, xs: seq<string>, rest: seq<string>, rest': seq<string>)
    requires |xs| > 0 && x == JoinLines(xs)
    requires |rest| > 0 && |rest'| > 0 && JoinLines(rest) == JoinLines(rest')
    ensures JoinLines(front + ([x] + rest)) == JoinLines(front + (xs + rest'))
  {
    JoinAppend([x], rest, "\n");
    JoinAppend(xs, rest', "\n");
    if |front| > 0 {
      JoinAppend(front, [x] + rest, "\n");
      JoinAppend(front, xs + rest', "\n");
    } else {
      assert front + ([x] + rest) == [x] + rest;
      assert front + (xs + rest') == xs + rest';
    }
  }

  lemma ExtensionText(objectType: string, t: string, whereClause: bool, simdAccelerated: bool)
    ensures RealFunctionsExtension(objectType, t, whereClause, simdAccelerated)
      == JoinLines(ExtensionLines(objectType, t, whereClause, simdAccelerated))
  {
    var e, r, f := ElementaryFunctions(), RealFunctions(), FloatingPointFunctions();
    var sa := simdAccelerated;
    var p1, p2, p3 := ElementaryPreamble(objectType, whereClause), RealPreamble(objectType, whereClause), FloatingPointPreamble(objectType, whereClause);
    var ce, cr, cf := CatalogCode(e, t, sa), CatalogCode(r, t, sa), CatalogCode(f, t, sa);
    var le, lr, lf := CodeLines(e, t, sa), CodeLines(r, t, sa), CodeLines(f, t, sa);
    ExtensionEntries(objectType, t, whereClause, sa);
    CatalogCodeText(e, t, sa);
    CatalogCodeText(r, t, sa);
    CatalogCodeText(f, t, sa);
    CodeLinesNonEmpty(e, t, sa);
    CodeLinesNonEmpty(r, t, sa);
    CodeLinesNonEmpty(f, t, sa);
    SpliceChunk(p3, cf, lf, ["}"], ["}"]);
    SpliceChunk(p2, cr, lr, p3 + ([cf] + ["}"]), p3 + (lf + ["}"]));
    SpliceChunk(p1, ce, le, p2 + ([cr] + (p3 + ([cf] + ["}"]))), p2 + (lr + (p3 + (lf + ["}"]))));
    var h := if sa then JoinLines(AcceleratedHeaderLines) else "";
    SpliceChunk([], h, HeaderLines(sa),
      p1 + ([ce] + (p2 + ([cr] + (p3 + ([cf] + ["}"]))))),
      p1 + (le + (p2 + (lr + (p3 + (lf + ["}"]))))));
    assert [] + ([h] + (p1 + ([ce] + (p2 + ([cr] + (p3 + ([cf] + ["}"])))))))
      == [h] + (p1 + ([ce] + (p2 + ([cr] + (p3 + ([cf] + ["}"]))))));
    assert [] + (HeaderLines(sa) + (p1 + (le + (p2 + (lr + (p3 + (lf + ["}"])))))))
      == ExtensionLines(objectType, t, whereClause, sa);
  }

  /** The `simd` import opens the file exactly when the file is accelerated. */
  lemma HeaderIffAccelerated(objectType: string, t: string, whereClause: bool, simdAccelerated: bool)
    ensures StartsWith(RealFunctionsExtension(objectType, t, whereClause, simdAccelerated), JoinLines(AcceleratedHeaderLines) + "\n")
      <==> simdAccelerated
  {
    var text := RealFunctionsExtension(objectType, t, whereClause, simdAccelerated);
    var header := JoinLines(AcceleratedHeaderLines);
    var sa := simdAccelerated;
    var h := if sa then header else "";
    var rest :=
      ElementaryPreamble(objectType, whereClause)
      + ([CatalogCode(ElementaryFunctions(), t, sa)]
      + (RealPreamble(objectType, whereClause)
      + ([CatalogCode(RealFunctions(), t, sa)]
      + (FloatingPointPreamble(objectType, whereClause)
      + ([CatalogCode(FloatingPointFunctions(), t, sa)]
      + ["}"])))));
    ExtensionEntries(objectType, t, whereClause, sa);
    JoinAppend([h], rest, "\n");
    assert text == h + "\n" + JoinLines(rest);
    assert header[0] == '#';
    if sa {
      assert text == (header + "\n") + JoinLines(rest);
      assert text[..|header + "\n"|] == header + "\n";
    } else {
      assert text[0] == '\n';
      NotStartsWith(text, header + "\n", 0);
    }
  }

  /** A line that opens an extension. */
  predicate IsOpening(line: string)
  {
    StartsWith(line, "extension ")
  }

  /** The lines of `ls` that open an extension, in order. */
  function Openings(ls: seq<string>): seq<string>
    decreases |ls|
  {
    if |ls| == 0 then [] else (if IsOpening(ls[0]) then [ls[0]] else []) + Openings(ls[1..])
  }

  lemma {:induction false} OpeningsAppend(a: seq<string>, b: seq<string>)
    ensures Openings(a + b) == Openings(a) + Openings(b)
    decreases |a|
  {
    if |a| == 0 {
      assert a + b == b;
    } else {
      var head := if IsOpening(a[0]) then [a[0]] else [];
      assert (a + b)[0] == a[0];
      assert (a + b)[1..] == a[1..] + b;
      OpeningsAppend(a[1..], b);
      assert Openings(a + b) == head + Openings(a[1..] + b);
      assert Openings(a) == head + Openings(a[1..]);
      assert head + (Openings(a[1..]) + Openings(b)) == (head + Openings(a[1..])) + Openings(b);
    }
  }

  /** A file of three sections: only the sections' preambles open extensions. */
  lemma OpeningsOfSections(h: seq<string>, p1: seq<string>, s1: seq<string>, p2: seq<string>, s2: seq<string>,
                           p3: seq<string>, s3: seq<string>, tail: seq<string>)
    requires Openings(h) == Openings(s1) == Openings(s2) == Openings(s3) == Openings(tail) == []
    ensures Openings(h + (p1 + (s1 + (p2 + (s2 + (p3 + (s3 + tail)))))))
      == Openings(p1) + Openings(p2) + Openings(p3)
  {
    OpeningsAppend(s3, tail);
    OpeningsAppend(p3, s3 + tail);
    OpeningsAppend(s2, p3 + (s3 + tail));
    OpeningsAppend(p2, s2 + (p3 + (s3 + tail)));
    OpeningsAppend(s1, p2 + (s2 + (p3 + (s3 + tail))));
    OpeningsAppend(p1, s1 + (p2 + (s2 + (p3 + (s3 + tail)))));
    OpeningsAppend(h, p1 + (s1 + (p2 + (s2 + (p3 + (s3 + tail))))));
  }

  lemma {:induction false} NoOpenings(ls: seq<string>)
    requires forall k :: 0 <= k < |ls| ==> !IsOpening(ls[k])
    ensures Openings(ls) == []
    decreases |ls|
  {
    if |ls| > 0 {
      NoOpenings(ls[1..]);
    }
  }

  /** Lines that start with something other than `e` open no extension. */
  lemma NoOpeningsByFirstChar(ls: seq<string>)
    requires forall k :: 0 <= k < |ls| ==> |ls[k]| == 0 || ls[k][0] != 'e'
    ensures Openings(ls) == []
  {
    forall k | 0 <= k < |ls| ensures !IsOpening(ls[k]) {
      NotStartsWith(ls[k], "extension ", 0);
    }
    NoOpenings(ls);
  }

  lemma OpeningIsOpening(objectType: string, whereClause: bool, protocol: string)
    ensures IsOpening(Opening(objectType, whereClause, protocol))
  {
    var line := Opening(objectType, whereClause, protocol);
    assert line == "extension " + (objectType + WhereClause(whereClause, protocol) + " {");
    assert line[..10] == "extension ";
  }

  /** Lines that open nothing followed by one opening. */
  lemma OpeningsOfPreamble(front: seq<string>, opening: string)
    requires Openings(front) == []
    requires IsOpening(opening)
    ensures Openings(front + [opening]) == [opening]
  {
    OpeningsAppend(front, [opening]);
    assert [opening][1..] == [];
  }

  lemma PreambleOpenings(objectType: string, whereClause: bool)
    ensures Openings(ElementaryPreamble(objectType, whereClause)) == [Opening(objectType, whereClause, "ElementaryFunctions")]
    ensures Openings(RealPreamble(objectType, whereClause)) == [Opening(objectType, whereClause, "RealFunctions")]
    ensures Openings(FloatingPointPreamble(objectType, whereClause)) == [Opening(objectType, whereClause, "Real")]
  {
    var f1 := ["import RealModule", "", "// MARK: ElementaryFunctions"];
    OpeningIsOpening(objectType, whereClause, "ElementaryFunctions");
    NoOpeningsByFirstChar(f1);
    assert ElementaryPreamble(objectType, whereClause) == f1 + [Opening(objectType, whereClause, "ElementaryFunctions")];
    OpeningsOfPreamble(f1, Opening(objectType, whereClause, "ElementaryFunctions"));
    RealPreambleOpenings(objectType, whereClause);
    FloatingPointPreambleOpenings(objectType, whereClause);
  }

  lemma RealPreambleOpenings(objectType: string, whereClause: bool)
    ensures Openings(RealPreamble(objectType, whereClause)) == [Opening(objectType, whereClause, "RealFunctions")]
  {
    var f2 := ["}", "", "// MARK: RealFunctions"];
    OpeningIsOpening(objectType, whereClause, "RealFunctions");
    NoOpeningsByFirstChar(f2);
    assert RealPreamble(objectType, whereClause) == f2 + [Opening(objectType, whereClause, "RealFunctions")];
    OpeningsOfPreamble(f2, Opening(objectType, whereClause, "RealFunctions"));
  }

  lemma NoteOpensNothing()
    ensures Openings([""] + SignGammaNote) == []
  {
    assert forall k :: 0 <= k < |SignGammaNote| ==> SignGammaNote[k][0] == ' ';
    NoOpeningsByFirstChar([""] + SignGammaNote);
  }

  lemma FloatingPointPreambleOpenings(objectType: string, whereClause: bool)
    ensures Openings(FloatingPointPreamble(objectType, whereClause)) == [Opening(objectType, whereClause, "Real")]
  {
    var note := [""] + SignGammaNote;
    var f3 := ["}", "", "// MARK: FloatingPointFunctions"];
    var o := Opening(objectType, whereClause, "Real");
    OpeningIsOpening(objectType, whereClause, "Real");
    NoteOpensNothing();
    NoOpeningsByFirstChar(f3);
    NoteThenOpening(note, f3, o);
    assert FloatingPointPreamble(objectType, whereClause) == note + f3 + [o];
  }

  /** Two runs of lines that open nothing, then one opening. */
  lemma NoteThenOpening(note: seq<string>, marks: seq<string>, opening: string)
    requires Openings(note) == [] && Openings(marks) == [] && IsOpening(opening)
    ensures Openings(note + marks + [opening]) == [opening]
  {
    OpeningsAppend(note, marks);
    OpeningsOfPreamble(note + marks, opening);
  }

  lemma {:induction false} NoOpeningsInBlocks(blocks: seq<seq<string>>)
    requires forall k, j :: 0 <= k < |blocks| && 0 <= j < |blocks[k]| ==> |blocks[k][j]| > 0 && blocks[k][j][0] == ' '
    ensures Openings(Join(blocks, [""])) == []
    decreases |blocks|
  {
    if |blocks| == 1 {
      NoOpeningsByFirstChar(blocks[0]);
    } else if |blocks| > 1 {
      NoOpeningsByFirstChar(blocks[0]);
      NoOpeningsByFirstChar([""]);
      NoOpeningsInBlocks(blocks[1..]);
      OpeningsAppend(blocks[0], [""]);
      OpeningsAppend(blocks[0] + [""], Join(blocks[1..], [""]));
    }
  }

  lemma NoOpeningsInCode(c: seq<RealFunction>, t: string, simdAccelerated: bool)
    ensures Openings(CodeLines(c, t, simdAccelerated)) == []
  {
    var blocks := Blocks(c, t, simdAccelerated);
    forall k | 0 <= k < |blocks|
      ensures forall j :: 0 <= j < |blocks[k]| ==> |blocks[k][j]| > 0 && blocks[k][j][0] == ' '
    {
      TemplateLinesIndented(c[k], t, simdAccelerated);
    }
    NoOpeningsInBlocks(blocks);
  }

  /** The file opens exactly three extensions: elementary, real and floating-point functions. */
  lemma ExtensionOpenings(objectType: string, t: string, whereClause: bool, simdAccelerated: bool)
    ensures Openings(ExtensionLines(objectType, t, whereClause, simdAccelerated))
      == [ Opening(objectType, whereClause, "ElementaryFunctions"),
           Opening(objectType, whereClause, "RealFunctions"),
           Opening(objectType, whereClause, "Real") ]
  {
    LayoutOpenings(objectType, t, whereClause, simdAccelerated, ElementaryFunctions(), RealFunctions(), FloatingPointFunctions());
  }

  lemma LayoutOpenings(objectType: string, t: string, whereClause: bool, sa: bool,
                       ce: seq<RealFunction>, cr: seq<RealFunction>, cf: seq<RealFunction>)
    ensures Openings(
      HeaderLines(sa)
      + (ElementaryPreamble(objectType, whereClause)
      + (CodeLines(ce, t, sa)
      + (RealPreamble(objectType, whereClause)
      + (CodeLines(cr, t, sa)
      + (FloatingPointPreamble(objectType, whereClause)
      + (CodeLines(cf, t, sa)
      + ["}"])))))))
      == [ Opening(objectType, whereClause, "ElementaryFunctions"),
           Opening(objectType, whereClause, "RealFunctions"),
           Opening(objectType, whereClause, "Real") ]
  {
    PreambleOpenings(objectType, whereClause);
    NoOpeningsByFirstChar(HeaderLines(sa));
    NoOpeningsInCode(ce, t, sa);
    NoOpeningsInCode(cr, t, sa);
    NoOpeningsInCode(cf, t, sa);
    NoOpeningsByFirstChar(["}"]);
    OpeningsOfSections(HeaderLines(sa),
      ElementaryPreamble(objectType, whereClause), CodeLines(ce, t, sa),
      RealPreamble(objectType, whereClause), CodeLines(cr, t, sa),
      FloatingPointPreamble(objectType, whereClause), CodeLines(cf, t, sa),
      ["}"]);
  }

  /** An extension heading as it reads: the extended type and the `Scalar` constraint, if any. */
  datatype Heading = Heading(objectType: string, constraint: Option<string>)

  /** Reads `extension T {` or `extension T where Scalar: P {`. */
  function ReadOpening(line: string): Heading
  {
    var rest := line[Min(10, |line|)..];
    var space := IndexOf(rest, ' ');
    var tail := rest[space..];
    if |tail| < 17 then Heading(rest[..space], None)
    else Heading(rest[..space], Some(tail[15..|tail| - 2]))
  }

  lemma ReadOpeningRoundTrip(objectType: string, whereClause: bool, protocol: string)
    requires IsTypeName(objectType) && IsIdentifier(protocol)
    ensures ReadOpening(Opening(objectType, whereClause, protocol))
      == Heading(objectType, if whereClause then Some(protocol) else None)
  {
    var tail := WhereClause(whereClause, protocol) + " {";
    TypeNameAvoids(objectType);
    assert Opening(objectType, whereClause, protocol) == "extension " + (objectType + tail);
    ReadHeading(objectType, tail);
    if whereClause {
      WhereTail(protocol);
    }
  }

  /** An opening reads back as the type before its first space and the text after the where-clause's prefix. */
  lemma ReadHeading(objectType: string, tail: string)
    requires Avoids(objectType, ' ') && |tail| > 0 && tail[0] == ' '
    ensures ReadOpening("extension " + (objectType + tail))
      == if |tail| < 17 then Heading(objectType, None) else Heading(objectType, Some(tail[15..|tail| - 2]))
  {
    var line := "extension " + (objectType + tail);
    assert line[10..] == objectType + tail;
    CutAt(objectType, tail, ' ');
  }

  lemma WhereTail(protocol: string)
    ensures var tail := " where Scalar: " + protocol + " {";
      |tail| >= 17 && tail[15..|tail| - 2] == protocol
  {
    var tail := " where Scalar: " + protocol + " {";
    assert tail[15..|tail| - 2] == protocol;
  }

  /** The protocols the three extensions conform to, in order. */
  function ExtendedProtocols(): seq<string>
  {
    ["ElementaryFunctions", "RealFunctions", "Real"]
  }

  /**
    The three extensions extend `objectType`, and carry the constraints
    `ElementaryFunctions`, `RealFunctions` and `Real`, in that order, exactly
    when where-clauses are requested.
   */
  lemma WhereClausesIffRequested(objectType: string, t: string, whereClause: bool, simdAccelerated: bool)
    requires IsTypeName(objectType)
    ensures var opens := Openings(ExtensionLines(objectType, t, whereClause, simdAccelerated));
      && |opens| == 3
      && forall k :: 0 <= k < 3 ==>
           ReadOpening(opens[k]) == Heading(objectType, if whereClause then Some(ExtendedProtocols()[k]) else None)
  {
    var opens := Openings(ExtensionLines(objectType, t, whereClause, simdAccelerated));
    var ps := ExtendedProtocols();
    ExtensionOpenings(objectType, t, whereClause, simdAccelerated);
    assert forall k :: 0 <= k < 3 ==> opens[k] == Opening(objectType, whereClause, ps[k]);
    ProtocolNamesAreIdentifiers();
    ReadOpenings(objectType, whereClause, ps, opens);
  }

  lemma ProtocolNamesAreIdentifiers()
    ensures forall k :: 0 <= k < |ExtendedProtocols()| ==> IsIdentifier(ExtendedProtocols()[k])
  {
    assert IsIdentifier("ElementaryFunctions") && IsIdentifier("RealFunctions") && IsIdentifier("Real");
  }

  /** Reading back the openings of extensions conforming to `ps`. */
  lemma ReadOpenings(objectType: string, whereClause: bool, ps: seq<string>, opens: seq<string>)
    requires IsTypeName(objectType) && forall k :: 0 <= k < |ps| ==> IsIdentifier(ps[k])
    requires |opens| == |ps| && forall k :: 0 <= k < |ps| ==> opens[k] == Opening(objectType, whereClause, ps[k])
    ensures forall k :: 0 <= k < |ps| ==>
      ReadOpening(opens[k]) == Heading(objectType, if whereClause then Some(ps[k]) else None)
  {
    forall k | 0 <= k < |ps|
      ensures ReadOpening(opens[k]) == Heading(objectType, if whereClause then Some(ps[k]) else None)
    {
      ReadOpeningRoundTrip(objectType, whereClause, ps[k]);
    }
  }
}
