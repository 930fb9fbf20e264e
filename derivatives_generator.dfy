/**
  `RealFunctionsDerivativesGenerator`: the text registering a reverse-mode
  derivative (`@derivative(of:)`) for every catalog function of one target
  type. The template is fixed; its only parameters are the target type and
  the floating-point type of its lanes, and its only branch is the body of
  the `abs` derivative, a scalar conditional when the target type is the
  floating-point type itself and a lane-wise `replacing(with:where:)`
  otherwise.

  The template is modelled as a table of registrations, one per catalog
  function, rendered line by line; the derivative formulas are opaque text.
 */
module RealFunctionsDerivativesGenerator {
  import opened Text
  import opened Records
  import opened RealFunctionsGenerator

  // ---------------------------------------------------------------------
  // Registrations
  // ---------------------------------------------------------------------

  /**
    The statements of a derivative body, by shape. `value` is the forward
    result and `pullback` the expression the closure `{ v in … }` returns.
   */
  datatype Body =
    | /** `prelude…; [return ](value: V, pullback: { v in P })` */
      Labelled(prelude: seq<string>, hasReturn: bool, value: string, pullback: string)
    | /** `prelude…; return (V, { v in P })` */
      Unlabelled(prelude: seq<string>, value: string, pullback: string)
    | /** a tuple spread over several lines, the closure binding `locals` before returning `result` */
      Spread(value: string, trailing: string, locals: seq<string>, result: string)
    | /** `C ? (value: V1, pullback: { v in P1 }) : (value: V2, pullback: { v in P2 })` */
      Choice(condition: string, thenValue: string, thenPullback: string, elseValue: string, elsePullback: string)
    | /** a body that traps at run time */
      Unimplemented

  /**
    One `@derivative(of:)` registration: the function it differentiates (with
    the argument-label selector that picks an overload, if any), the name of
    the derivative function, its parameters, the number of cotangents its
    pullback returns, and its body.
   */
  datatype Registration = Registration(
    original: string, selector: Option<string>, vjp: string,
    parameters: seq<Argument>, cotangents: nat, body: Body)

  /** A registration for a function of the default single positional `x`. */
  function Unary(original: string, vjp: string, body: Body): Registration
  {
    Registration(original, None, vjp, DefaultArguments(), 1, body)
  }

  /** The `ElementaryFunctions` registrations, in template order. */
  function ElementaryRegistrations(fp: string): (rs: seq<Registration>)
    ensures |rs| == 20
  {
    [ Unary("exp", "_vjpExp", Labelled(["let value = exp(x)"], true, "value", "v * value")),
      Unary("expMinusOne", "_vjpExpMinusOne", Labelled([], true, "expMinusOne(x)", "v * exp(x)")),
      Unary("cosh", "_vjpCosh", Labelled([], false, "cosh(x)", "sinh(x)")),
      Unary("sinh", "_vjpSinh", Labelled([], false, "sinh(x)", "cosh(x)")),
      Unary("tanh", "_vjpTanh", Spread("tanh(x)", "", ["let coshx = cosh(x)"], "v / (coshx * coshx)")),
      Unary("cos", "_vjpCos", Labelled([], false, "cos(x)", "-v * sin(x)")),
      Unary("sin", "_vjpSin", Labelled([], false, "sin(x)", "v * cos(x)")),
      Unary("tan", "_vjpTan", Spread("tan(x)", " ", ["let cosx = cos(x)"], "v / (cosx * cosx)")),
      Registration("log", Some("_:"), "_vjpLog", DefaultArguments(), 1, Labelled([], false, "log(x)", "v / x")),
      Unary("acosh", "_vjpAcosh", Labelled(["// only valid for x > 1"], true, "acosh(x)", "v / sqrt(x * x - 1)")),
      Unary("asinh", "_vjpAsinh", Labelled([], false, "asinh(x)", "v / sqrt(x * x + 1)")),
      Unary("atanh", "_vjpAtanh", Labelled([], false, "atanh(x)", "v / (1 - x * x)")),
      Unary("acos", "_vjpAcos", Labelled([], false, "acos(x)", "-v / (1 - x * x)")),
      Unary("asin", "_vjpAsin", Labelled([], false, "asin(x)", "v / (1 - x * x)")),
      Unary("atan", "_vjpAtan", Labelled([], false, "atan(x)", "v / (x * x + 1)")),
      Registration("log", Some("onePlus:"), "_vjpLog", [Arg("x", argumentLabel := Some("onePlus"))], 1,
        Labelled([], false, "log(onePlus: x)", "v / (1 + x)")),
      Registration("pow", None, "_vjpPow", [Positional("x"), Positional("y")], 2,
        Labelled(["let value = pow(x, y)", "// pullback wrt y is not defined for (x < 0) and (x = 0, y = 0)"],
          true, "value", "(v * y * pow(x, y - 1), v * value * log(x))")),
      Registration("pow", None, "_vjpPow", [Positional("x"), PositionalInt("n")], 1,
        Labelled([], false, "pow(x, n)", "v * " + fp + "(n) * pow(x, n - 1)")),
      Unary("sqrt", "_vjpSqrt", Labelled(["let value = sqrt(x)"], true, "value", "v / (2 * value)")),
      Registration("root", None, "_vjpRoot", [Positional("x"), PositionalInt("n")], 1,
        Labelled(["let value = root(x, n)"], true, "value", "v * value / (x * " + fp + "(n))")) ]
  }

  /** The `RealFunctions` registrations, in template order. */
  function RealRegistrations(fp: string): (rs: seq<Registration>)
    ensures |rs| == 10
  {
    [ Unary("erf", "_vjpErf", Labelled([], false, "erf(x)", "2 * exp(-x * x) / .sqrt(" + fp + ".pi)")),
      Unary("erfc", "_vjpErfc", Labelled([], false, "erfc(x)", "-2 * exp(-x * x) / .sqrt(" + fp + ".pi)")),
      Unary("exp2", "_vjpExp2", Unlabelled(["let value = exp2(x)"], "value", "v * value * .log(2)")),
      Unary("exp10", "_vjpExp10", Unlabelled(["let value = exp10(x)"], "value", "v * value * .log(10)")),
      Unary("gamma", "_vjpGamma", Unimplemented),
      Unary("log2", "_vjpLog2", Labelled([], false, "log2(x)", "v / (.log(2) * x)")),
      Unary("log10", "_vjpLog10", Labelled([], false, "log10(x)", "v / (.log(10) * x)")),
      Unary("logGamma", "_vjpLogGamma", Unimplemented),
      Registration("atan2", None, "_vjpAtan2", [Arg("y"), Arg("x")], 2,
        Spread("atan2(y: y, x: x)", " ", ["let c = x * x + y * y"], "(v * x / c, -v * y / c)")),
      Registration("hypot", None, "_vjpHypot", [Positional("x"), Positional("y")], 2,
        Spread("hypot(x, y)", " ", ["let c = sqrt(x * x + y * y)"], "(v * x / c, v * y / c)")) ]
  }

  /**
    The body of the `abs` derivative: for a scalar type, negative inputs are
    negated and the cotangent with them; for a vector type, the cotangent is
    negated in the lanes where the input is negative.
   */
  function AbsBody(t: string, fp: string): Body
  {
    if t == fp then Choice("x < 0", "-x", ".zero - v", "x", "v")
    else Labelled([], false, "abs(x)", "v.replacing(with: -v, where: x .< .zero)")
  }

  function AbsRegistration(t: string, fp: string): Registration
  {
    Unary("abs", "_vjpAbs", AbsBody(t, fp))
  }

  /** All registrations, section after section. */
  function Registrations(t: string, fp: string): (rs: seq<Registration>)
    ensures |rs| == 31
  {
    ElementaryRegistrations(fp) + RealRegistrations(fp) + [AbsRegistration(t, fp)]
  }

  // ---------------------------------------------------------------------
  // Rendering
  // ---------------------------------------------------------------------

  /** `(value: V, pullback: { v in P })` */
  function Pair(value: string, pullback: string): string
  {
    "(value: " + value + ", pullback: { v in " + pullback + " })"
  }

  /** The statements of a body, relative to the body's indentation. */
  function Statements(b: Body): seq<string>
  {
    match b
    case Labelled(prelude, hasReturn, value, pullback) =>
      prelude + [(if hasReturn then "return " else "") + Pair(value, pullback)]
    case Unlabelled(prelude, value, pullback) =>
      prelude + ["return (" + value + ", { v in " + pullback + " })"]
    case Spread(value, trailing, locals, result) =>
      ["(", "    value: " + value + "," + trailing, "    pullback: { v in" + trailing]
      + seq(|locals|, k requires 0 <= k < |locals| => "        " + locals[k])
      + ["        return " + result, "    }", ")"]
    case Choice(condition, thenValue, thenPullback, elseValue, elsePullback) =>
      [condition + " ? " + Pair(thenValue, thenPullback) + " : " + Pair(elseValue, elsePullback)]
    case Unimplemented =>
      ["fatalError(\"unimplemented\")"]
  }

  /** The body's statements indented inside the derivative function. */
  function BodyLines(b: Body): seq<string>
  {
    var s := Statements(b);
    seq(|s|, k requires 0 <= k < |s| => "        " + s[k])
  }

  function Selector(selector: Option<string>): string
  {
    match selector
    case None => ""
    case Some(labels) => "(" + labels + ")"
  }

  const AttributePrefix := "    @derivative(of: "

  /** `@derivative(of: f)` or, for an overload picked by labels, `@derivative(of: f(l:))`. */
  function AttributeLine(r: Registration): string
  {
    AttributePrefix + (r.original + Selector(r.selector) + ")")
  }

  /** The pullback's result type: one cotangent, or a tuple of them. */
  function PullbackType(t: string, cotangents: nat): string
  {
    if cotangents == 1 then t
    else "(" + Join(seq(cotangents, _ => t), ", ") + ")"
  }

  function SignatureLine(r: Registration, t: string): string
  {
    DeclarationPrefix + (r.vjp + "(" + InterfaceArguments(r.parameters, t) + ") -> (value: " + t
      + ", pullback: (" + t + ") -> " + PullbackType(t, r.cotangents) + ") {")
  }

  function RegistrationLines(r: Registration, t: string): seq<string>
  {
    [AttributeLine(r), SignatureLine(r, t)] + BodyLines(r.body) + ["    }"]
  }

  /** The code block of each registration, in order. */
  function RegistrationBlocks(rs: seq<Registration>, t: string): seq<seq<string>>
    decreases |rs|
  {
    if |rs| == 0 then [] else [RegistrationLines(rs[0], t)] + RegistrationBlocks(rs[1..], t)
  }

  /** The registrations of one section, a blank line between neighbours. */
  function SectionLines(rs: seq<Registration>, t: string): seq<string>
  {
    Join(RegistrationBlocks(rs, t), [""])
  }

  /** A section of one registration is its block. */
  lemma SectionLinesSingle(rs: seq<Registration>, t: string)
    requires |rs| == 1
    ensures SectionLines(rs, t) == RegistrationLines(rs[0], t)
  {
    assert RegistrationBlocks(rs[1..], t) == [];
    assert RegistrationBlocks(rs, t) == [RegistrationLines(rs[0], t)];
  }

  /** A section of several registrations is its first block, a blank line and the rest. */
  lemma SectionLinesCons(rs: seq<Registration>, t: string)
    requires |rs| > 1
    ensures SectionLines(rs, t) == RegistrationLines(rs[0], t) + [""] + SectionLines(rs[1..], t)
  {
    var b := RegistrationBlocks(rs, t);
    assert b == [RegistrationLines(rs[0], t)] + RegistrationBlocks(rs[1..], t);
    assert b[1..] == RegistrationBlocks(rs[1..], t);
  }

  const DerivativesHeader := ["#if canImport(_Differentiation)", "import _Differentiation", "import RealModule", ""]

  function ExtensionOpening(t: string): string
  {
    "extension " + t + " {"
  }

  function DerivativesLines(t: string, fp: string): seq<string>
  {
    DerivativesHeader
    + (["// MARK: ElementaryFunctions derivatives", ExtensionOpening(t)]
    + (SectionLines(ElementaryRegistrations(fp), t)
    + (["}", "", "// MARK: RealFunctions derivatives", ExtensionOpening(t)]
    + (SectionLines(RealRegistrations(fp), t)
    + (["}", "", "// MARK: FloatingPoint functions derivatives", ExtensionOpening(t)]
    + (RegistrationLines(AbsRegistration(t, fp), t)
    + ["}", "#endif"]))))))
  }

  /** The derivatives file for target type `t` with lanes of type `fp`. */
  function RealFunctionsDerivativesExtension(t: string, fp: string): string
  {
    JoinLines(DerivativesLines(t, fp))
  }

  // ---------------------------------------------------------------------
  // One attribute per registration, in table order
  // ---------------------------------------------------------------------

  predicate IsAttribute(line: string)
  {
    StartsWith(line, AttributePrefix)
  }

  /** The `@derivative(of:)` lines of `ls`, in order. */
  function Attributes(ls: seq<string>): seq<string>
    decreases |ls|
  {
    if |ls| == 0 then [] else (if IsAttribute(ls[0]) then [ls[0]] else []) + Attributes(ls[1..])
  }

  /** The attribute line of each registration, in order. */
  function AttributeLines(rs: seq<Registration>): (ls: seq<string>)
    ensures |ls| == |rs| && forall k :: 0 <= k < |rs| ==> ls[k] == AttributeLine(rs[k])
    decreases |rs|
  {
    if |rs| == 0 then [] else [AttributeLine(rs[0])] + AttributeLines(rs[1..])
  }

  lemma AttributeLinesAppend(a: seq<Registration>, b: seq<Registration>)
    ensures AttributeLines(a + b) == AttributeLines(a) + AttributeLines(b)
  {
    var l, la, lb := AttributeLines(a + b), AttributeLines(a), AttributeLines(b);
    forall k | 0 <= k < |l| ensures l[k] == (la + lb)[k] {
      if k < |a| {
        assert la[k] == AttributeLine(a[k]);
      } else {
        assert lb[k - |a|] == AttributeLine(b[k - |a|]);
      }
    }
  }

  lemma {:induction false} AttributesAppend(a: seq<string>, b: seq<string>)
    ensures Attributes(a + b) == Attributes(a) + Attributes(b)
    decreases |a|
  {
    if |a| == 0 {
      assert a + b == b;
    } else {
      var head := if IsAttribute(a[0]) then [a[0]] else [];
      assert (a + b)[0] == a[0];
      assert (a + b)[1..] == a[1..] + b;
      AttributesAppend(a[1..], b);
      assert Attributes(a + b) == head + Attributes(a[1..] + b);
      assert Attributes(a) == head + Attributes(a[1..]);
      assert head + (Attributes(a[1..]) + Attributes(b)) == (head + Attributes(a[1..])) + Attributes(b);
    }
  }

  /** Lines whose fifth character is not `@` register nothing. */
  lemma {:induction false} NoAttributes(ls: seq<string>)
    requires forall k :: 0 <= k < |ls| ==> |ls[k]| <= 4 || ls[k][4] != '@'
    ensures Attributes(ls) == []
    decreases |ls|
  {
    if |ls| > 0 {
      NotStartsWith(ls[0], AttributePrefix, 4);
      NoAttributes(ls[1..]);
    }
  }

  lemma RegistrationAttributes(r: Registration, t: string)
    ensures Attributes(RegistrationLines(r, t)) == [AttributeLine(r)]
  {
    var a := AttributeLine(r);
    var sig := SignatureLine(r, t);
    var body := BodyLines(r.body);
    var rest := [sig] + body + ["    }"];
    assert RegistrationLines(r, t) == [a] + rest;
    assert a[..|AttributePrefix|] == AttributePrefix;
    assert sig[4] == DeclarationPrefix[4] == 'p';
    forall k | 0 <= k < |rest| ensures |rest[k]| <= 4 || rest[k][4] != '@' {
      if 0 < k < |rest| - 1 {
        assert rest[k] == body[k - 1];
      }
    }
    NoAttributes(rest);
    AttributesAppend([a], rest);
    assert Attributes([a]) == [a] + Attributes([]);
  }

  /** A section has the attributes of its registrations, in order. */
  lemma {:induction false} SectionAttributes(rs: seq<Registration>, t: string)
    ensures Attributes(SectionLines(rs, t)) == AttributeLines(rs)
    decreases |rs|
  {
    if |rs| == 1 {
      SectionLinesSingle(rs, t);
      RegistrationAttributes(rs[0], t);
    } else if |rs| > 1 {
      var head := RegistrationLines(rs[0], t);
      SectionLinesCons(rs, t);
      SectionAttributes(rs[1..], t);
      RegistrationAttributes(rs[0], t);
      NoAttributes([""]);
      AttributesAppend(head, [""]);
      AttributesAppend(head + [""], SectionLines(rs[1..], t));
    }
  }

  /** Sections separated by lines that register nothing keep their attributes, in order. */
  lemma AttributesOfSections(h: seq<string>, p1: seq<string>, s1: seq<string>, p2: seq<string>, s2: seq<string>,
                             p3: seq<string>, s3: seq<string>, tail: seq<string>)
    requires Attributes(h) == Attributes(p1) == Attributes(p2) == Attributes(p3) == Attributes(tail) == []
    ensures Attributes(h + (p1 + (s1 + (p2 + (s2 + (p3 + (s3 + tail)))))))
      == Attributes(s1) + Attributes(s2) + Attributes(s3)
  {
    AttributesAppend(s3, tail);
    AttributesAppend(p3, s3 + tail);
    AttributesAppend(s2, p3 + (s3 + tail));
    AttributesAppend(p2, s2 + (p3 + (s3 + tail)));
    AttributesAppend(s1, p2 + (s2 + (p3 + (s3 + tail))));
    AttributesAppend(p1, s1 + (p2 + (s2 + (p3 + (s3 + tail)))));
    AttributesAppend(h, p1 + (s1 + (p2 + (s2 + (p3 + (s3 + tail))))));
  }

  /** The lines around the registrations register nothing. */
  lemma FixedLinesRegisterNothing(t: string)
    ensures Attributes(DerivativesHeader) == []
    ensures Attributes(["// MARK: ElementaryFunctions derivatives", ExtensionOpening(t)]) == []
    ensures Attributes(["}", "", "// MARK: RealFunctions derivatives", ExtensionOpening(t)]) == []
    ensures Attributes(["}", "", "// MARK: FloatingPoint functions derivatives", ExtensionOpening(t)]) == []
    ensures Attributes(["}", "#endif"]) == []
  {
    HeaderRegistersNothing();
    OpeningRegistersNothing("// MARK: ElementaryFunctions derivatives", t);
    ClosingRegistersNothing("// MARK: RealFunctions derivatives", t);
    ClosingRegistersNothing("// MARK: FloatingPoint functions derivatives", t);
    FooterRegistersNothing();
  }

  lemma HeaderRegistersNothing()
    ensures Attributes(DerivativesHeader) == []
  {
    NoAttributes(DerivativesHeader);
  }

  lemma FooterRegistersNothing()
    ensures Attributes(["}", "#endif"]) == []
  {
    NoAttributes(["}", "#endif"]);
  }

  /** A mark comment followed by an extension opening registers nothing. */
  lemma OpeningRegistersNothing(mark: string, t: string)
    requires |mark| > 4 && mark[4] != '@'
    ensures Attributes([mark, ExtensionOpening(t)]) == []
  {
    assert ExtensionOpening(t)[4] == 'n';
    NoAttributes([mark, ExtensionOpening(t)]);
  }

  /** A closing brace, a blank line, a mark comment and an extension opening register nothing. */
  lemma ClosingRegistersNothing(mark: string, t: string)
    requires |mark| > 4 && mark[4] != '@'
    ensures Attributes(["}", "", mark, ExtensionOpening(t)]) == []
  {
    assert ExtensionOpening(t)[4] == 'n';
    NoAttributes(["}", "", mark, ExtensionOpening(t)]);
  }

  /**
    The file registers a derivative for each registration of the table, in
    table order, and nowhere else.
   */
  lemma DerivativeAttributes(t: string, fp: string)
    ensures Attributes(DerivativesLines(t, fp)) == AttributeLines(Registrations(t, fp))
  {
    LayoutAttributes(t, ElementaryRegistrations(fp), RealRegistrations(fp), AbsRegistration(t, fp));
  }

  lemma LayoutAttributes(t: string, e: seq<Registration>, r: seq<Registration>, a: Registration)
    ensures Attributes(
      DerivativesHeader
      + (["// MARK: ElementaryFunctions derivatives", ExtensionOpening(t)]
      + (SectionLines(e, t)
      + (["}", "", "// MARK: RealFunctions derivatives", ExtensionOpening(t)]
      + (SectionLines(r, t)
      + (["}", "", "// MARK: FloatingPoint functions derivatives", ExtensionOpening(t)]
      + (RegistrationLines(a, t)
      + ["}", "#endif"])))))))
      == AttributeLines(e + r + [a])
  {
    var o := ExtensionOpening(t);
    var p1 := ["// MARK: ElementaryFunctions derivatives", o];
    var p2 := ["}", "", "// MARK: RealFunctions derivatives", o];
    var p3 := ["}", "", "// MARK: FloatingPoint functions derivatives", o];
    var tail := ["}", "#endif"];
    FixedLinesRegisterNothing(t);
    SectionAttributes(e, t);
    SectionAttributes(r, t);
    RegistrationAttributes(a, t);
    AttributesOfSections(DerivativesHeader, p1, SectionLines(e, t), p2, SectionLines(r, t), p3, RegistrationLines(a, t), tail);
    AttributeLinesAppend(e, r);
    AttributeLinesAppend(e + r, [a]);
  }

  /** The function an attribute names and, for a selected overload, the labels of the selector. */
  function ReadAttribute(line: string): (string, Option<string>)
  {
    var rest := line[Min(|AttributePrefix|, |line|)..];
    var inner := if |rest| > 0 then rest[..|rest| - 1] else rest;
    var open := IndexOf(inner, '(');
    if open + 2 <= |inner| then (inner[..open], Some(inner[open + 1..|inner| - 1]))
    else (inner, None)
  }

  lemma AttributeRoundTrip(r: Registration)
    requires IsIdentifier(r.original)
    ensures IsAttribute(AttributeLine(r))
    ensures ReadAttribute(AttributeLine(r)) == (r.original, r.selector)
  {
    var line := AttributeLine(r);
    assert line[..|AttributePrefix|] == AttributePrefix;
    var rest := line[|AttributePrefix|..];
    assert rest == r.original + Selector(r.selector) + ")";
    var inner := rest[..|rest| - 1];
    assert inner == r.original + Selector(r.selector);
    IdentifierAvoids(r.original);
    CutAt(r.original, Selector(r.selector), '(');
    match r.selector {
      case None =>
        assert inner == r.original;
      case Some(labels) =>
        assert inner == r.original + "(" + labels + ")";
        assert inner[|r.original| + 1..|inner| - 1] == labels;
    }
  }

  // ---------------------------------------------------------------------
  // The file opens three extensions of the target type
  // ---------------------------------------------------------------------

  lemma RegistrationOpensNothing(r: Registration, t: string)
    ensures Openings(RegistrationLines(r, t)) == []
  {
    var ls := RegistrationLines(r, t);
    var body := BodyLines(r.body);
    assert AttributeLine(r)[0] == ' ';
    assert SignatureLine(r, t)[0] == ' ';
    forall k | 0 <= k < |ls| ensures |ls[k]| == 0 || ls[k][0] != 'e' {
      if 2 <= k < |ls| - 1 {
        assert ls[k] == body[k - 2];
      }
    }
    NoOpeningsByFirstChar(ls);
  }

  lemma {:induction false} SectionOpensNothing(rs: seq<Registration>, t: string)
    ensures Openings(SectionLines(rs, t)) == []
    decreases |rs|
  {
    if |rs| == 1 {
      SectionLinesSingle(rs, t);
      RegistrationOpensNothing(rs[0], t);
    } else if |rs| > 1 {
      var head := RegistrationLines(rs[0], t);
      SectionLinesCons(rs, t);
      SectionOpensNothing(rs[1..], t);
      RegistrationOpensNothing(rs[0], t);
      NoOpeningsByFirstChar([""]);
      OpeningsAppend(head, [""]);
      OpeningsAppend(head + [""], SectionLines(rs[1..], t));
    }
  }

  lemma FixedLinesOpenings(t: string)
    ensures Openings(DerivativesHeader) == []
    ensures Openings(["// MARK: ElementaryFunctions derivatives", ExtensionOpening(t)]) == [ExtensionOpening(t)]
    ensures Openings(["}", "", "// MARK: RealFunctions derivatives", ExtensionOpening(t)]) == [ExtensionOpening(t)]
    ensures Openings(["}", "", "// MARK: FloatingPoint functions derivatives", ExtensionOpening(t)]) == [ExtensionOpening(t)]
    ensures Openings(["}", "#endif"]) == []
  {
    NoOpeningsByFirstChar(DerivativesHeader);
    OpeningAfterMark("// MARK: ElementaryFunctions derivatives", t);
    OpeningAfterClosing("// MARK: RealFunctions derivatives", t);
    OpeningAfterClosing("// MARK: FloatingPoint functions derivatives", t);
    NoOpeningsByFirstChar(["}", "#endif"]);
  }

  /** Lines that open nothing, followed by an extension opening, open that extension only. */
  lemma MarkOpenings(front: seq<string>, t: string)
    requires forall k :: 0 <= k < |front| ==> |front[k]| == 0 || front[k][0] != 'e'
    ensures Openings(front + [ExtensionOpening(t)]) == [ExtensionOpening(t)]
  {
    var o := ExtensionOpening(t);
    assert o == "extension " + (t + " {");
    assert o[..10] == "extension ";
    NoOpeningsByFirstChar(front);
    OpeningsOfPreamble(front, o);
  }

  lemma OpeningAfterMark(mark: string, t: string)
    requires |mark| > 0 && mark[0] != 'e'
    ensures Openings([mark, ExtensionOpening(t)]) == [ExtensionOpening(t)]
  {
    MarkOpenings([mark], t);
    assert [mark] + [ExtensionOpening(t)] == [mark, ExtensionOpening(t)];
  }

  lemma OpeningAfterClosing(mark: string, t: string)
    requires |mark| > 0 && mark[0] != 'e'
    ensures Openings(["}", "", mark, ExtensionOpening(t)]) == [ExtensionOpening(t)]
  {
    MarkOpenings(["}", "", mark], t);
    assert ["}", "", mark] + [ExtensionOpening(t)] == ["}", "", mark, ExtensionOpening(t)];
  }

  /** The file extends the target type three times, once per section, with no `where` clause. */
  lemma DerivativeOpenings(t: string, fp: string)
    ensures Openings(DerivativesLines(t, fp)) == [ExtensionOpening(t), ExtensionOpening(t), ExtensionOpening(t)]
  {
    LayoutOpenings(t, ElementaryRegistrations(fp), RealRegistrations(fp), AbsRegistration(t, fp));
  }

  lemma LayoutOpenings(t: string, e: seq<Registration>, r: seq<Registration>, a: Registration)
    ensures Openings(
      DerivativesHeader
      + (["// MARK: ElementaryFunctions derivatives", ExtensionOpening(t)]
      + (SectionLines(e, t)
      + (["}", "", "// MARK: RealFunctions derivatives", ExtensionOpening(t)]
      + (SectionLines(r, t)
      + (["}", "", "// MARK: FloatingPoint functions derivatives", ExtensionOpening(t)]
      + (RegistrationLines(a, t)
      + ["}", "#endif"])))))))
      == [ExtensionOpening(t), ExtensionOpening(t), ExtensionOpening(t)]
  {
    FixedLinesOpenings(t);
    SectionOpensNothing(e, t);
    SectionOpensNothing(r, t);
    RegistrationOpensNothing(a, t);
    ThreeOpenings(ExtensionOpening(t), DerivativesHeader,
      ["// MARK: ElementaryFunctions derivatives", ExtensionOpening(t)], SectionLines(e, t),
      ["}", "", "// MARK: RealFunctions derivatives", ExtensionOpening(t)], SectionLines(r, t),
      ["}", "", "// MARK: FloatingPoint functions derivatives", ExtensionOpening(t)], RegistrationLines(a, t),
      ["}", "#endif"]);
  }

  /** Three sections, each preamble opening `o`, open `o` three times. */
  lemma ThreeOpenings(o: string, h: seq<string>, p1: seq<string>, s1: seq<string>, p2: seq<string>, s2: seq<string>,
                      p3: seq<string>, s3: seq<string>, tail: seq<string>)
    requires Openings(h) == Openings(s1) == Openings(s2) == Openings(s3) == Openings(tail) == []
    requires Openings(p1) == Openings(p2) == Openings(p3) == [o]
    ensures Openings(h + (p1 + (s1 + (p2 + (s2 + (p3 + (s3 + tail))))))) == [o, o, o]
  {
    OpeningsOfSections(h, p1, s1, p2, s2, p3, s3, tail);
  }

  // ---------------------------------------------------------------------
  // One registration per catalog entry
  // ---------------------------------------------------------------------

  /** The Swift selector of a parameter list: each argument's label (its name when it has none) followed by `:`. */
  function LabelSelector(arguments: seq<Argument>): string
  {
    if |arguments| == 0 then ""
    else (if arguments[0].argumentLabel.Some? then arguments[0].argumentLabel.value else arguments[0].name) + ":"
         + LabelSelector(arguments[1..])
  }

  /**
   * `r` registers the derivative of `f`: same name, same parameters, and a
   * selector, when `r` names one, that spells the labels of those parameters.
   */
  predicate Differentiates(r: Registration, f: RealFunction)
  {
    && r.original == f.name && r.parameters == f.arguments
    && (r.selector.None? || r.selector.value == LabelSelector(f.arguments))
  }

  /** Some registration of `rs` is for `f`. */
  predicate HasRegistration(rs: seq<Registration>, f: RealFunction)
  {
    exists j :: 0 <= j < |rs| && Differentiates(rs[j], f)
  }

  /** `r` is for some entry of `c`. */
  predicate InCatalog(r: Registration, c: seq<RealFunction>)
  {
    exists k :: 0 <= k < |c| && Differentiates(r, c[k])
  }

  /** Every entry of `c` has a registration in `rs`, every registration is for an entry of `c`, and no entry has two. */
  predicate OneToOne(rs: seq<Registration>, c: seq<RealFunction>)
  {
    && (forall k :: 0 <= k < |c| ==> HasRegistration(rs, c[k]))
    && (forall j :: 0 <= j < |rs| ==> InCatalog(rs[j], c))
    && (forall j1, j2, k :: (0 <= j1 < |rs| && 0 <= j2 < |rs| && 0 <= k < |c|
         && Differentiates(rs[j1], c[k]) && Differentiates(rs[j2], c[k])) ==> j1 == j2)
  }

  /** For the registration at each position of the table, the position of its catalog entry. */
  const EntryOf: seq<nat> :=
    [0, 1, 2, 3, 4, 5, 6, 7, 8, 10, 11, 12, 13, 14, 15, 9, 17, 16, 18, 19,
     21, 22, 23, 24, 26, 27, 28, 29, 20, 25,
     30]

  /** For each catalog entry, the position of its registration. */
  const RegistrationOf: seq<nat> :=
    [0, 1, 2, 3, 4, 5, 6, 7, 8, 15, 9, 10, 11, 12, 13, 14, 17, 16, 18, 19,
     28, 20, 21, 22, 23, 29, 24, 25, 26, 27,
     30]

  lemma EntryOrderIsPermutation()
    ensures |EntryOf| == |RegistrationOf| == 31
    ensures forall j :: 0 <= j < 31 ==> EntryOf[j] < 31 && RegistrationOf[EntryOf[j]] == j
    ensures forall k :: 0 <= k < 31 ==> RegistrationOf[k] < 31 && EntryOf[RegistrationOf[k]] == k
  {
  }

  /** The position of an entry in the catalog, found by its name and parameters. */
  function CatalogPosition(name: string, arguments: seq<Argument>): nat
  {
    match name
    case "exp" => 0
    case "expMinusOne" => 1
    case "cosh" => 2
    case "sinh" => 3
    case "tanh" => 4
    case "cos" => 5
    case "sin" => 6
    case "tan" => 7
    case "log" => if arguments == DefaultArguments() then 8 else 9
    case "acosh" => 10
    case "asinh" => 11
    case "atanh" => 12
    case "acos" => 13
    case "asin" => 14
    case "atan" => 15
    case "pow" => if arguments == [Positional("x"), PositionalInt("n")] then 16 else 17
    case "sqrt" => 18
    case "root" => 19
    case "atan2" => 20
    case "erf" => 21
    case "erfc" => 22
    case "exp2" => 23
    case "exp10" => 24
    case "hypot" => 25
    case "gamma" => 26
    case "log2" => 27
    case "log10" => 28
    case "logGamma" => 29
    case "abs" => 30
    case _ => 31
  }

  lemma ElementaryPositions()
    ensures forall k :: 0 <= k < 20 ==> CatalogPosition(ElementaryFunctions()[k].name, ElementaryFunctions()[k].arguments) == k
  {
    ElementaryPositions0();
    ElementaryPositions1();
    ElementaryPositions2();
    ElementaryPositions3();
  }

  // ElementaryPositions0 to ElementaryPositions3 split the table by position only to keep each proof small.
  lemma ElementaryPositions0()
    ensures forall k :: 0 <= k < 5 ==> CatalogPosition(ElementaryFunctions()[k].name, ElementaryFunctions()[k].arguments) == k
  {
  }

  lemma ElementaryPositions1()
    ensures forall k :: 5 <= k < 10 ==> CatalogPosition(ElementaryFunctions()[k].name, ElementaryFunctions()[k].arguments) == k
  {
    assert ElementaryFunctions()[9].arguments != DefaultArguments();
  }

  lemma ElementaryPositions2()
    ensures forall k :: 10 <= k < 15 ==> CatalogPosition(ElementaryFunctions()[k].name, ElementaryFunctions()[k].arguments) == k
  {
  }

  lemma ElementaryPositions3()
    ensures forall k :: 15 <= k < 20 ==> CatalogPosition(ElementaryFunctions()[k].name, ElementaryFunctions()[k].arguments) == k
  {
    assert ElementaryFunctions()[17].arguments != [Positional("x"), PositionalInt("n")];
  }

  lemma RealPositions()
    ensures forall k :: 0 <= k < 10 ==> CatalogPosition(RealFunctions()[k].name, RealFunctions()[k].arguments) == 20 + k
  {
  }

  lemma CatalogPositions()
    ensures forall k :: 0 <= k < 31 ==> CatalogPosition(Catalog()[k].name, Catalog()[k].arguments) == k
  {
    var c := Catalog();
    ElementaryPositions();
    RealPositions();
    forall k | 0 <= k < 31 ensures CatalogPosition(c[k].name, c[k].arguments) == k {
      if k < 20 {
        assert c[k] == ElementaryFunctions()[k];
      } else if k < 30 {
        assert c[k] == RealFunctions()[k - 20];
      } else {
        assert c[k] == FloatingPointFunctions()[0];
      }
    }
  }

  /** No two catalog entries share both name and parameters. */
  lemma CatalogSignaturesDistinct()
    ensures forall i, k :: (0 <= i < 31 && 0 <= k < 31 && Catalog()[i].name == Catalog()[k].name
      && Catalog()[i].arguments == Catalog()[k].arguments) ==> i == k
  {
    CatalogPositions();
  }

  lemma ElementaryMatches(fp: string)
    ensures forall j :: 0 <= j < 20 ==> (EntryOf[j] < 20
      && Differentiates(ElementaryRegistrations(fp)[j], ElementaryFunctions()[EntryOf[j]]))
  {
    ElementaryMatches0(fp);
    ElementaryMatches1(fp);
    ElementaryMatches2(fp);
    ElementaryMatches3(fp);
    ElementaryMatches4(fp);
    ElementaryMatches5(fp);
    ElementaryMatches6(fp);
  }

  // ElementaryMatches0 to ElementaryMatches6 split the table by position only to keep each proof small.
  lemma ElementaryMatches0(fp: string)
    ensures forall j :: 0 <= j < 3 ==> (EntryOf[j] < 20
      && Differentiates(ElementaryRegistrations(fp)[j], ElementaryFunctions()[EntryOf[j]]))
  {
  }

  lemma ElementaryMatches1(fp: string)
    ensures forall j :: 3 <= j < 6 ==> (EntryOf[j] < 20
      && Differentiates(ElementaryRegistrations(fp)[j], ElementaryFunctions()[EntryOf[j]]))
  {
  }

  lemma ElementaryMatches2(fp: string)
    ensures forall j :: 6 <= j < 9 ==> (EntryOf[j] < 20
      && Differentiates(ElementaryRegistrations(fp)[j], ElementaryFunctions()[EntryOf[j]]))
  {
  }

  lemma ElementaryMatches3(fp: string)
    ensures forall j :: 9 <= j < 12 ==> (EntryOf[j] < 20
      && Differentiates(ElementaryRegistrations(fp)[j], ElementaryFunctions()[EntryOf[j]]))
  {
  }

  lemma ElementaryMatches4(fp: string)
    ensures forall j :: 12 <= j < 15 ==> (EntryOf[j] < 20
      && Differentiates(ElementaryRegistrations(fp)[j], ElementaryFunctions()[EntryOf[j]]))
  {
  }

  lemma ElementaryMatches5(fp: string)
    ensures forall j :: 15 <= j < 18 ==> (EntryOf[j] < 20
      && Differentiates(ElementaryRegistrations(fp)[j], ElementaryFunctions()[EntryOf[j]]))
  {
  }

  lemma ElementaryMatches6(fp: string)
    ensures forall j :: 18 <= j < 20 ==> (EntryOf[j] < 20
      && Differentiates(ElementaryRegistrations(fp)[j], ElementaryFunctions()[EntryOf[j]]))
  {
  }

  lemma RealMatches(fp: string)
    ensures forall j :: 0 <= j < 10 ==> (20 <= EntryOf[20 + j] < 30
      && Differentiates(RealRegistrations(fp)[j], RealFunctions()[EntryOf[20 + j] - 20]))
  {
  }

  /** Every registration of the table is for the catalog entry `EntryOf` names. */
  lemma RegistrationsMatchEntries(t: string, fp: string)
    ensures forall j :: 0 <= j < 31 ==> EntryOf[j] < 31 && Differentiates(Registrations(t, fp)[j], Catalog()[EntryOf[j]])
  {
    var rs, c := Registrations(t, fp), Catalog();
    ElementaryMatches(fp);
    RealMatches(fp);
    forall j | 0 <= j < 31 ensures Differentiates(rs[j], c[EntryOf[j]]) {
      if j < 20 {
        assert rs[j] == ElementaryRegistrations(fp)[j];
        assert c[EntryOf[j]] == ElementaryFunctions()[EntryOf[j]];
      } else if j < 30 {
        assert rs[j] == RealRegistrations(fp)[j - 20];
        assert c[EntryOf[j]] == RealFunctions()[EntryOf[j] - 20];
      }
    }
  }

  /**
    Each of the 31 catalog entries has exactly one registration, and every
    registration is for a catalog entry; the two `log` and the two `pow`
    overloads are told apart by their parameters.
   */
  lemma OneRegistrationPerEntry(t: string, fp: string)
    ensures OneToOne(Registrations(t, fp), Catalog())
  {
    RegistrationsMatchEntries(t, fp);
    CatalogSignaturesDistinct();
    MatchedOneToOne(Registrations(t, fp), Catalog());
  }

  /** A table matched to a catalog of distinct signatures through `EntryOf` is matched one to one. */
  lemma MatchedOneToOne(rs: seq<Registration>, c: seq<RealFunction>)
    requires |rs| == 31 && |c| == 31
    requires forall j :: 0 <= j < 31 ==> EntryOf[j] < 31 && Differentiates(rs[j], c[EntryOf[j]])
    requires forall i, k :: (0 <= i < 31 && 0 <= k < 31 && c[i].name == c[k].name
      && c[i].arguments == c[k].arguments) ==> i == k
    ensures OneToOne(rs, c)
  {
    EntryOrderIsPermutation();
    MatchedThrough(rs, c, EntryOf, RegistrationOf);
  }

  /**
    A table matched to a catalog of distinct signatures through a position
    map `entry` with inverse `registration` is matched one to one.
   */
  lemma MatchedThrough(rs: seq<Registration>, c: seq<RealFunction>, entry: seq<nat>, registration: seq<nat>)
    requires |rs| == |c| == |entry| == |registration|
    requires forall j :: 0 <= j < |rs| ==> entry[j] < |c| && registration[entry[j]] == j
    requires forall k :: 0 <= k < |c| ==> registration[k] < |rs| && entry[registration[k]] == k
    requires forall j :: 0 <= j < |rs| ==> Differentiates(rs[j], c[entry[j]])
    requires forall i, k :: (0 <= i < |c| && 0 <= k < |c| && c[i].name == c[k].name
      && c[i].arguments == c[k].arguments) ==> i == k
    ensures OneToOne(rs, c)
  {
    forall k | 0 <= k < |c| ensures HasRegistration(rs, c[k]) {
      var j := registration[k];
      assert Differentiates(rs[j], c[entry[j]]);
    }
    forall j | 0 <= j < |rs| ensures InCatalog(rs[j], c) {
      assert Differentiates(rs[j], c[entry[j]]);
    }
    forall j1, j2, k | 0 <= j1 < |rs| && 0 <= j2 < |rs| && 0 <= k < |c|
      && Differentiates(rs[j1], c[k]) && Differentiates(rs[j2], c[k])
      ensures j1 == j2
    {
      assert Differentiates(rs[j1], c[entry[j1]]);
      assert Differentiates(rs[j2], c[entry[j2]]);
      assert entry[j1] == k == entry[j2];
    }
  }

  /** The file registers, in order, one derivative per table entry, naming its function and selector. */
  lemma AttributesNameRegistrations(t: string, fp: string)
    ensures ReadBackAs(Attributes(DerivativesLines(t, fp)), Registrations(t, fp))
  {
    DerivativeAttributes(t, fp);
    RegisteredNamesAreIdentifiers(t, fp);
    AttributesReadBack(Registrations(t, fp));
  }

  /** The k-th attribute names the function and selector of the k-th registration, and there is one per registration. */
  predicate ReadBackAs(attributes: seq<string>, rs: seq<Registration>)
  {
    && |attributes| == |rs|
    && forall j :: 0 <= j < |rs| ==> ReadAttribute(attributes[j]) == (rs[j].original, rs[j].selector)
  }

  /** Each attribute line of a table reads back as its function and selector. */
  lemma AttributesReadBack(rs: seq<Registration>)
    requires NamesAreIdentifiers(rs)
    ensures ReadBackAs(AttributeLines(rs), rs)
  {
    forall j | 0 <= j < |rs| ensures ReadAttribute(AttributeLines(rs)[j]) == (rs[j].original, rs[j].selector) {
      AttributeRoundTrip(rs[j]);
    }
  }

  /** Every registration names an identifier. */
  predicate NamesAreIdentifiers(rs: seq<Registration>)
  {
    forall j :: 0 <= j < |rs| ==> IsIdentifier(rs[j].original)
  }

  /** Every registration names an identifier, the name of its catalog entry. */
  lemma RegisteredNamesAreIdentifiers(t: string, fp: string)
    ensures NamesAreIdentifiers(Registrations(t, fp))
  {
    var rs, c := Registrations(t, fp), Catalog();
    RegistrationsMatchEntries(t, fp);
    CatalogWellFormed();
    forall j | 0 <= j < 31 ensures IsIdentifier(rs[j].original) {
      assert rs[j].original == c[EntryOf[j]].name;
    }
  }

  // ---------------------------------------------------------------------
  // Cotangents, trapping bodies and the parameters of the template
  // ---------------------------------------------------------------------

  /** The number of parameters of the target type, which are the ones a pullback returns a cotangent for. */
  function DifferentiableCount(ps: seq<Argument>): nat
    decreases |ps|
  {
    if |ps| == 0 then 0 else (if ps[0].fixedType.None? then 1 else 0) + DifferentiableCount(ps[1..])
  }

  lemma {:induction false} DifferentiableCountAppend(a: seq<Argument>, b: seq<Argument>)
    ensures DifferentiableCount(a + b) == DifferentiableCount(a) + DifferentiableCount(b)
    decreases |a|
  {
    if |a| == 0 {
      assert a + b == b;
    } else {
      assert (a + b)[1..] == a[1..] + b;
      DifferentiableCountAppend(a[1..], b);
    }
  }

  lemma ParameterCounts()
    ensures DifferentiableCount(DefaultArguments()) == 1
    ensures DifferentiableCount([Arg("x", argumentLabel := Some("onePlus"))]) == 1
    ensures DifferentiableCount([Positional("x"), Positional("y")]) == 2
    ensures DifferentiableCount([Positional("x"), PositionalInt("n")]) == 1
    ensures DifferentiableCount([Arg("y"), Arg("x")]) == 2
  {
    assert DifferentiableCount([Positional("y")]) == 1;
    assert DifferentiableCount([PositionalInt("n")]) == 0;
    assert DifferentiableCount([Arg("x")]) == 1;
    DifferentiableCountAppend([Positional("x")], [Positional("y")]);
    DifferentiableCountAppend([Positional("x")], [PositionalInt("n")]);
    DifferentiableCountAppend([Arg("y")], [Arg("x")]);
    assert [Positional("x")] + [Positional("y")] == [Positional("x"), Positional("y")];
    assert [Positional("x")] + [PositionalInt("n")] == [Positional("x"), PositionalInt("n")];
    assert [Arg("y")] + [Arg("x")] == [Arg("y"), Arg("x")];
  }

  lemma ElementaryCotangents(fp: string)
    ensures forall j :: 0 <= j < 20 ==>
      ElementaryRegistrations(fp)[j].cotangents == DifferentiableCount(ElementaryRegistrations(fp)[j].parameters)
  {
    ParameterCounts();
  }

  lemma RealCotangents(fp: string)
    ensures forall j :: 0 <= j < 10 ==>
      RealRegistrations(fp)[j].cotangents == DifferentiableCount(RealRegistrations(fp)[j].parameters)
  {
    ParameterCounts();
  }

  /**
    Every pullback returns one cotangent per parameter of the target type:
    `pow(x, n)` and `root(x, n)` a single one (none for the `Int`), the
    two-argument `pow`, `atan2` and `hypot` a pair.
   */
  lemma CotangentsPerDifferentiableParameter(t: string, fp: string)
    ensures forall j :: 0 <= j < 31 ==>
      Registrations(t, fp)[j].cotangents == DifferentiableCount(Registrations(t, fp)[j].parameters)
  {
    var rs := Registrations(t, fp);
    ElementaryCotangents(fp);
    RealCotangents(fp);
    ParameterCounts();
    forall j | 0 <= j < 31 ensures rs[j].cotangents == DifferentiableCount(rs[j].parameters) {
      if j < 20 {
        assert rs[j] == ElementaryRegistrations(fp)[j];
      } else if j < 30 {
        assert rs[j] == RealRegistrations(fp)[j - 20];
      }
    }
  }

  /** A pair of cotangents is declared as a tuple of the target type. */
  lemma PairPullbackType(t: string)
    ensures PullbackType(t, 2) == "(" + t + ", " + t + ")"
  {
    var ts := seq(2, _ => t);
    assert ts[1..] == [t];
    assert Join(ts, ", ") == t + ", " + Join([t], ", ");
  }

  lemma ElementaryImplemented(fp: string)
    ensures forall j :: 0 <= j < 20 ==> ElementaryRegistrations(fp)[j].body != Unimplemented
  {
  }

  lemma RealUnimplemented(fp: string)
    ensures forall j :: 0 <= j < 10 ==>
      (RealRegistrations(fp)[j].body == Unimplemented <==>
        RealRegistrations(fp)[j].original == "gamma" || RealRegistrations(fp)[j].original == "logGamma")
  {
  }

  lemma ElementaryNamesNotGamma(fp: string)
    ensures forall j :: 0 <= j < 20 ==>
      ElementaryRegistrations(fp)[j].original != "gamma" && ElementaryRegistrations(fp)[j].original != "logGamma"
  {
  }

  /** Exactly the `gamma` and `logGamma` derivatives trap instead of computing. */
  lemma UnimplementedExactlyGammas(t: string, fp: string)
    ensures forall j :: 0 <= j < 31 ==>
      (Registrations(t, fp)[j].body == Unimplemented <==>
        Registrations(t, fp)[j].original == "gamma" || Registrations(t, fp)[j].original == "logGamma")
  {
    var rs := Registrations(t, fp);
    ElementaryImplemented(fp);
    ElementaryNamesNotGamma(fp);
    RealUnimplemented(fp);
    forall j | 0 <= j < 31
      ensures rs[j].body == Unimplemented <==> rs[j].original == "gamma" || rs[j].original == "logGamma"
    {
      if j < 20 {
        assert rs[j] == ElementaryRegistrations(fp)[j];
      } else if j < 30 {
        assert rs[j] == RealRegistrations(fp)[j - 20];
      } else {
        assert rs[j] == AbsRegistration(t, fp);
      }
    }
  }

  /**
   * The registrations whose text mentions `floatingPointType`: `pow(_, Int)`,
   * `root`, `erf`, `erfc` and `abs`. (`pow(_, _)` and every other entry do not.)
   */
  predicate UsesFloatingPointType(r: Registration)
  {
    || (r.original in {"pow", "root"} && r.parameters == [Positional("x"), PositionalInt("n")])
    || r.original in {"erf", "erfc", "abs"}
  }

  /** Among the elementary functions, only `pow(_, Int)` and `root` depend on the floating-point type. */
  lemma ElementaryFloatingPointUses(fp1: string, fp2: string)
    ensures forall j :: 0 <= j < 20 ==>
      ElementaryRegistrations(fp1)[j] == ElementaryRegistrations(fp2)[j]
      || (ElementaryRegistrations(fp1)[j].original in {"pow", "root"}
          && ElementaryRegistrations(fp1)[j].parameters == [Positional("x"), PositionalInt("n")])
  {
  }

  /** Among the remaining real functions, only `erf` and `erfc` depend on the floating-point type. */
  lemma RealFloatingPointUses(fp1: string, fp2: string)
    ensures forall j :: 0 <= j < 10 ==>
      RealRegistrations(fp1)[j] == RealRegistrations(fp2)[j] || RealRegistrations(fp1)[j].original in {"erf", "erfc"}
  {
  }

  /** Changing the floating-point type changes only the registrations that use it. */
  lemma FloatingPointTypeUses(t: string, fp1: string, fp2: string)
    ensures forall j :: 0 <= j < 31 ==>
      Registrations(t, fp1)[j] == Registrations(t, fp2)[j] || UsesFloatingPointType(Registrations(t, fp1)[j])
  {
    var r1, r2 := Registrations(t, fp1), Registrations(t, fp2);
    ElementaryFloatingPointUses(fp1, fp2);
    RealFloatingPointUses(fp1, fp2);
    forall j | 0 <= j < 31 ensures r1[j] == r2[j] || UsesFloatingPointType(r1[j]) {
      if j < 20 {
        assert r1[j] == ElementaryRegistrations(fp1)[j] && r2[j] == ElementaryRegistrations(fp2)[j];
      } else if j < 30 {
        assert r1[j] == RealRegistrations(fp1)[j - 20] && r2[j] == RealRegistrations(fp2)[j - 20];
      } else {
        assert r1[j] == AbsRegistration(t, fp1);
      }
    }
  }

  lemma ElementaryNoChoice(fp: string)
    ensures forall j :: 0 <= j < 20 ==> !ElementaryRegistrations(fp)[j].body.Choice?
  {
  }

  lemma RealNoChoice(fp: string)
    ensures forall j :: 0 <= j < 10 ==> !RealRegistrations(fp)[j].body.Choice?
  {
  }

  /**
   * The `abs` body lines as the template writes them: the scalar conditional,
   * or the lane-wise `replacing` form. Each literal is written in two or three
   * pieces only so that its comparison with the rendering stays small.
   */
  function AbsTemplateLines(scalar: bool): seq<string>
  {
    if scalar then
      ["        " + ("x < 0 ? " + "(value: -x, pullback: { v in .zero - v })" + " : " + "(value: x, pullback: { v in v })")]
    else
      ["        " + ("(value: abs(x), pullback: { v in " + "v.replacing(with: -v, where: x .< .zero) })")]
  }

  /** The scalar `abs` statement spells the template's conditional. */
  lemma ScalarAbsText()
    ensures Statements(AbsBody("Float", "Float"))
      == ["x < 0 ? " + "(value: -x, pullback: { v in .zero - v })" + " : " + "(value: x, pullback: { v in v })"]
  {
    assert "x < 0" + " ? " == "x < 0 ? ";
    NegativePairText();
    PositivePairText();
  }

  /** The branch for a negative `x` spells the template's first pair. */
  lemma NegativePairText()
    ensures Pair("-x", ".zero - v") == "(value: -x, pullback: { v in .zero - v })"
  {
  }

  /** The branch for a non-negative `x` spells the template's second pair. */
  lemma PositivePairText()
    ensures Pair("x", "v") == "(value: x, pullback: { v in v })"
  {
  }

  /** The lane-wise `abs` statement spells the template's `replacing` form. */
  lemma LaneAbsText()
    ensures Pair("abs(x)", "v.replacing(with: -v, where: x .< .zero)")
      == "(value: abs(x), pullback: { v in " + "v.replacing(with: -v, where: x .< .zero) })"
  {
    var p := "v.replacing(with: -v, where: x .< .zero)";
    assert "(value: " + "abs(x)" + ", pullback: { v in " == "(value: abs(x), pullback: { v in ";
    assert p + " })" == "v.replacing(with: -v, where: x .< .zero) })";
    Associate("(value: " + "abs(x)" + ", pullback: { v in ", p, " })");
  }

  /** Concatenation regroups. */
  lemma Associate<T>(a: seq<T>, b: seq<T>, c: seq<T>)
    ensures a + b + c == a + (b + c)
  {
  }

  /** The `abs` body renders as the template's text for its branch. */
  lemma AbsBodyText(t: string, fp: string)
    ensures AbsBody(t, fp).Choice? <==> t == fp
    ensures BodyLines(AbsBody(t, fp)) == AbsTemplateLines(t == fp)
  {
    if t == fp {
      ScalarAbsText();
      assert Statements(AbsBody(t, fp)) == Statements(AbsBody("Float", "Float"));
    } else {
      var line := Pair("abs(x)", "v.replacing(with: -v, where: x .< .zero)");
      assert "" + line == line;
      assert Statements(AbsBody(t, fp)) == [line];
      LaneAbsText();
    }
  }

  /** The registration `r` is `abs` with the scalar conditional exactly when `scalar`, spelled as the template spells it. */
  predicate AbsAs(r: Registration, scalar: bool)
  {
    && r.original == "abs"
    && (r.body.Choice? <==> scalar)
    && BodyLines(r.body) == AbsTemplateLines(scalar)
  }

  /** The last registration is `abs`; its body is the scalar conditional exactly in the scalar file. */
  lemma LastIsAbs(t: string, fp: string)
    ensures AbsAs(Registrations(t, fp)[30], t == fp)
  {
    LastOfSections(ElementaryRegistrations(fp), RealRegistrations(fp), AbsRegistration(t, fp));
    AbsBodyText(t, fp);
  }

  lemma LastOfSections<T>(e: seq<T>, r: seq<T>, x: T)
    requires |e| == 20 && |r| == 10
    ensures (e + r + [x])[30] == x
  {
  }

  /**
    The template's one branch: the `abs` body is the scalar conditional
    exactly when the target type is the floating-point type, and no other
    body is conditional; only the `abs` registration depends on the target
    type.
   */
  lemma AbsBranch(t: string, fp: string)
    ensures AbsAs(Registrations(t, fp)[30], t == fp)
    ensures forall j :: 0 <= j < 30 ==> !Registrations(t, fp)[j].body.Choice?
    ensures forall t' :: forall j :: 0 <= j < 30 ==> Registrations(t, fp)[j] == Registrations(t', fp)[j]
  {
    var rs := Registrations(t, fp);
    LastIsAbs(t, fp);
    ElementaryNoChoice(fp);
    RealNoChoice(fp);
    forall j | 0 <= j < 30 ensures !rs[j].body.Choice? {
      if j < 20 {
        assert rs[j] == ElementaryRegistrations(fp)[j];
      } else {
        assert rs[j] == RealRegistrations(fp)[j - 20];
      }
    }
    forall t', j | 0 <= j < 30 ensures rs[j] == Registrations(t', fp)[j] {
      if j < 20 {
        assert rs[j] == ElementaryRegistrations(fp)[j] == Registrations(t', fp)[j];
      } else {
        assert rs[j] == RealRegistrations(fp)[j - 20] == Registrations(t', fp)[j];
      }
    }
  }
}
