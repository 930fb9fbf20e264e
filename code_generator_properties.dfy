/**
  What `CodeGenerator.main` promises about the files it writes: how many and
  which artifacts, that their paths are pairwise distinct, that a run stops
  at its first failing write, and how each file is rendered.
 */
module CodeGeneratorProperties {
  import opened Text
  import opened Records
  import opened RealFunctionsGenerator
  import opened RealFunctionsDerivativesGenerator
  import opened CodeGenerator

  // ---------------------------------------------------------------------
  // How many artifacts, and which
  // ---------------------------------------------------------------------

  lemma {:induction false} WidthsPlanLength(fp: string, widths: seq<nat>)
    ensures |WidthsPlan(fp, widths)| == 2 * |widths|
    decreases |widths|
  {
    if |widths| > 0 {
      WidthsPlanLength(fp, widths[1..]);
    }
  }

  /** The inner loop writes, for the `j`th width, its implementation then its derivatives. */
  lemma {:induction false} WidthsPlanIndex(fp: string, widths: seq<nat>, j: nat)
    requires j < |widths|
    ensures 2 * j + 1 < |WidthsPlan(fp, widths)|
    ensures WidthsPlan(fp, widths)[2 * j] == SimdImplementation(widths[j], fp)
    ensures WidthsPlan(fp, widths)[2 * j + 1] == SimdDerivatives(widths[j], fp)
    decreases j
  {
    WidthsPlanLength(fp, widths);
    if j > 0 {
      WidthsPlanIndex(fp, widths[1..], j - 1);
      assert widths[1..][j - 1] == widths[j];
    }
  }

  lemma {:induction false} PrecisionsPlanLength(fps: seq<string>, widths: seq<nat>)
    ensures |PrecisionsPlan(fps, widths)| == |fps| * (1 + 2 * |widths|)
    decreases |fps|
  {
    if |fps| > 0 {
      var m := 1 + 2 * |widths|;
      PrecisionsPlanLength(fps[1..], widths);
      WidthsPlanLength(fps[0], widths);
      assert (|fps| - 1) * m + m == |fps| * m;
    }
  }

  /** `main` writes 1 + 2 * (1 + 6 * 2) = 27 files. */
  lemma PlanCount()
    ensures |Plan()| == 27
  {
    PrecisionsPlanLength(FloatingPointTypes, SimdSizes);
  }

  /** The iteration of the outer loop for one precision: its scalar derivatives, then its widths. */
  function Iteration(fp: string): seq<Artifact>
  {
    [ScalarDerivatives(fp)] + WidthsPlan(fp, SimdSizes)
  }

  lemma PlanLayout()
    ensures Plan() == [GenericImplementation] + Iteration("Float") + Iteration("Double")
    ensures |Iteration("Float")| == 13 && |Iteration("Double")| == 13
  {
    var fps := FloatingPointTypes;
    WidthsPlanLength("Float", SimdSizes);
    WidthsPlanLength("Double", SimdSizes);
    assert fps[1..] == ["Double"] && fps[1..][1..] == [];
    assert Iteration("Double") + [] == Iteration("Double");
  }

  lemma PlannedWidth(i: nat, j: nat)
    requires i < 2 && j < 6
    ensures 13 * i + 2 * j + 3 < |Plan()|
    ensures Plan()[13 * i + 2 * j + 2] == SimdImplementation(SimdSizes[j], FloatingPointTypes[i])
    ensures Plan()[13 * i + 2 * j + 3] == SimdDerivatives(SimdSizes[j], FloatingPointTypes[i])
  {
    var fp := FloatingPointTypes[i];
    PlanLayout();
    WidthsPlanIndex(fp, SimdSizes, j);
    var plan := Plan();
    if i == 0 {
      assert plan[2 * j + 2] == Iteration(fp)[2 * j + 1] && plan[2 * j + 3] == Iteration(fp)[2 * j + 2];
    } else {
      assert plan[15 + 2 * j] == Iteration(fp)[2 * j + 1] && plan[16 + 2 * j] == Iteration(fp)[2 * j + 2];
    }
  }

  /**
    The order of the writes: the generic implementation first; then for each
    precision its scalar derivatives, then for each width its implementation
    and its derivatives.
   */
  lemma PlanOrder()
    ensures |Plan()| == 27 && Plan()[0] == GenericImplementation
    ensures Plan()[1] == ScalarDerivatives("Float") && Plan()[14] == ScalarDerivatives("Double")
    ensures forall i, j :: 0 <= i < 2 && 0 <= j < 6 ==>
      && Plan()[13 * i + 2 * j + 2] == SimdImplementation(SimdSizes[j], FloatingPointTypes[i])
      && Plan()[13 * i + 2 * j + 3] == SimdDerivatives(SimdSizes[j], FloatingPointTypes[i])
  {
    PlanLayout();
    var plan := Plan();
    assert plan[1] == Iteration("Float")[0] && plan[14] == Iteration("Double")[0];
    forall i, j | 0 <= i < 2 && 0 <= j < 6
      ensures && Plan()[13 * i + 2 * j + 2] == SimdImplementation(SimdSizes[j], FloatingPointTypes[i])
              && Plan()[13 * i + 2 * j + 3] == SimdDerivatives(SimdSizes[j], FloatingPointTypes[i])
    {
      PlannedWidth(i, j);
    }
  }

  /** The artifacts of the loops over the precisions `fps` and the widths `widths`. */
  predicate Planned(fps: seq<string>, widths: seq<nat>, a: Artifact)
  {
    match a
    case GenericImplementation => true
    case ScalarDerivatives(fp) => fp in fps
    case SimdImplementation(w, fp) => fp in fps && w in widths
    case SimdDerivatives(w, fp) => fp in fps && w in widths
  }

  lemma {:induction false} WidthsPlanMembers(fp: string, widths: seq<nat>, a: Artifact)
    ensures a in WidthsPlan(fp, widths) <==> (a.SimdImplementation? || a.SimdDerivatives?) && a.fp == fp && a.width in widths
    decreases |widths|
  {
    if |widths| > 0 {
      WidthsPlanMembers(fp, widths[1..], a);
      assert widths == [widths[0]] + widths[1..];
    }
  }

  lemma {:induction false} PrecisionsPlanMembers(fps: seq<string>, widths: seq<nat>, a: Artifact)
    ensures a in PrecisionsPlan(fps, widths) <==> !a.GenericImplementation? && Planned(fps, widths, a)
    decreases |fps|
  {
    if |fps| > 0 {
      PrecisionsPlanMembers(fps[1..], widths, a);
      WidthsPlanMembers(fps[0], widths, a);
      assert fps == [fps[0]] + fps[1..];
    }
  }

  /**
    An artifact is written exactly when it is the generic implementation, the
    scalar derivatives of `Float` or `Double`, or a SIMD implementation or
    SIMD derivatives of width 2, 4, 8, 16, 32 or 64 over `Float` or `Double`.
   */
  lemma PlanMembers(a: Artifact)
    ensures a in Plan() <==> Planned(FloatingPointTypes, SimdSizes, a)
  {
    PrecisionsPlanMembers(FloatingPointTypes, SimdSizes, a);
  }

  lemma NoDuplicatesConcat<T>(a: seq<T>, b: seq<T>)
    requires NoDuplicates(a) && NoDuplicates(b)
    requires forall x :: x in a ==> x !in b
    ensures NoDuplicates(a + b)
  {
    var c := a + b;
    forall i, j | 0 <= i < j < |c| ensures c[i] != c[j] {
      if j < |a| {
        assert c[i] == a[i] && c[j] == a[j];
      } else if i >= |a| {
        assert c[i] == b[i - |a|] && c[j] == b[j - |a|];
      } else {
        assert c[i] == a[i] && c[j] == b[j - |a|];
        assert a[i] in a && b[j - |a|] in b;
      }
    }
  }

  lemma {:induction false} WidthsPlanDistinct(fp: string, widths: seq<nat>)
    requires NoDuplicates(widths)
    ensures NoDuplicates(WidthsPlan(fp, widths))
    decreases |widths|
  {
    if |widths| > 0 {
      var rest := widths[1..];
      assert NoDuplicates(rest) by {
        forall i, j | 0 <= i < j < |rest| ensures rest[i] != rest[j] {
          assert rest[i] == widths[i + 1] && rest[j] == widths[j + 1];
        }
      }
      WidthsPlanDistinct(fp, rest);
      var head := [SimdImplementation(widths[0], fp), SimdDerivatives(widths[0], fp)];
      assert widths[0] !in rest by {
        forall k | 0 <= k < |rest| ensures rest[k] != widths[0] {
          assert rest[k] == widths[k + 1];
        }
      }
      forall x | x in head ensures x !in WidthsPlan(fp, rest) {
        WidthsPlanMembers(fp, rest, x);
      }
      NoDuplicatesConcat(head, WidthsPlan(fp, rest));
    }
  }

  lemma {:induction false} PrecisionsPlanDistinct(fps: seq<string>, widths: seq<nat>)
    requires NoDuplicates(fps) && NoDuplicates(widths)
    ensures NoDuplicates(PrecisionsPlan(fps, widths))
    decreases |fps|
  {
    if |fps| > 0 {
      var rest := fps[1..];
      assert NoDuplicates(rest) by {
        forall i, j | 0 <= i < j < |rest| ensures rest[i] != rest[j] {
          assert rest[i] == fps[i + 1] && rest[j] == fps[j + 1];
        }
      }
      PrecisionsPlanDistinct(rest, widths);
      WidthsPlanDistinct(fps[0], widths);
      var scalar := [ScalarDerivatives(fps[0])];
      var block := scalar + WidthsPlan(fps[0], widths);
      forall x | x in scalar ensures x !in WidthsPlan(fps[0], widths) {
        WidthsPlanMembers(fps[0], widths, x);
      }
      NoDuplicatesConcat(scalar, WidthsPlan(fps[0], widths));
      assert fps[0] !in rest by {
        forall k | 0 <= k < |rest| ensures rest[k] != fps[0] {
          assert rest[k] == fps[k + 1];
        }
      }
      forall x | x in block ensures x !in PrecisionsPlan(rest, widths) {
        WidthsPlanMembers(fps[0], widths, x);
        PrecisionsPlanMembers(rest, widths, x);
      }
      NoDuplicatesConcat(block, PrecisionsPlan(rest, widths));
    }
  }

  /** No artifact is written twice, when neither list repeats itself. */
  lemma PlanForDistinct(fps: seq<string>, widths: seq<nat>)
    requires NoDuplicates(fps) && NoDuplicates(widths)
    ensures NoDuplicates(PlanFor(fps, widths))
  {
    PrecisionsPlanDistinct(fps, widths);
    forall x | x in [GenericImplementation] ensures x !in PrecisionsPlan(fps, widths) {
      PrecisionsPlanMembers(fps, widths, x);
    }
    NoDuplicatesConcat([GenericImplementation], PrecisionsPlan(fps, widths));
  }

  // ---------------------------------------------------------------------
  // File names and paths
  // ---------------------------------------------------------------------

  /** The `+`-separated fields of an artifact's file name. */
  function FileNameFields(a: Artifact): seq<string>
  {
    match a
    case GenericImplementation => ["SIMD", "RealFunctions.swift"]
    case ScalarDerivatives(fp) => [fp, "RealFunctions", "Derivatives.swift"]
    case SimdImplementation(w, fp) => ["SIMD" + NatToString(w), fp, "RealFunctions.swift"]
    case SimdDerivatives(w, fp) => ["SIMD" + NatToString(w), fp, "RealFunctions", "Derivatives.swift"]
  }

  /** The artifact a file name names, when it names one. */
  function ReadFileName(name: string): Option<Artifact>
  {
    ReadFields(Split(name, "+"))
  }

  /** The artifact whose file name has the `+`-separated `fields`, when there is one. */
  function ReadFields(fields: seq<string>): Option<Artifact>
  {
    if fields == ["SIMD", "RealFunctions.swift"] then Some(GenericImplementation)
    else if |fields| == 3 && fields[1..] == ["RealFunctions", "Derivatives.swift"] then Some(ScalarDerivatives(fields[0]))
    else if |fields| == 3 && fields[2] == "RealFunctions.swift" && StartsWith(fields[0], "SIMD")
    then Some(SimdImplementation(ParseNat(fields[0][4..]), fields[1]))
    else if |fields| == 4 && fields[2..] == ["RealFunctions", "Derivatives.swift"] && StartsWith(fields[0], "SIMD")
    then Some(SimdDerivatives(ParseNat(fields[0][4..]), fields[1]))
    else None
  }

  /** The precision of an artifact can be read back from its file name: it holds no `+`. */
  predicate Readable(a: Artifact)
  {
    match a
    case GenericImplementation => true
    case ScalarDerivatives(fp) => '+' !in fp
    case SimdImplementation(_, fp) => '+' !in fp
    case SimdDerivatives(_, fp) => '+' !in fp
  }

  lemma JoinThree(x: string, y: string, z: string, sep: string)
    ensures Join([x, y, z], sep) == x + sep + (y + sep + z)
  {
    assert [x, y, z][1..] == [y, z] && [y, z][1..] == [z];
    assert Join([z], sep) == z;
    assert Join([y, z], sep) == y + sep + z;
  }

  lemma JoinFour(w: string, x: string, y: string, z: string, sep: string)
    ensures Join([w, x, y, z], sep) == w + sep + (x + sep + (y + sep + z))
  {
    assert [w, x, y, z][1..] == [x, y, z];
    JoinThree(x, y, z, sep);
  }

  lemma FileNameJoin(a: Artifact)
    ensures FileName(a) == Join(FileNameFields(a), "+")
  {
    match a
    case GenericImplementation =>
      assert ["SIMD", "RealFunctions.swift"][1..] == ["RealFunctions.swift"];
      assert "SIMD+RealFunctions.swift" == "SIMD" + "+" + "RealFunctions.swift";
    case ScalarDerivatives(fp) =>
      JoinThree(fp, "RealFunctions", "Derivatives.swift", "+");
      DerivativesSuffix(fp);
    case SimdImplementation(w, fp) =>
      ImplementationNameJoin(NatToString(w), fp);
    case SimdDerivatives(w, fp) =>
      DerivativesNameJoin(NatToString(w), fp);
  }

  lemma ImplementationNameJoin(n: string, fp: string)
    ensures "SIMD" + n + "+" + fp + "+RealFunctions.swift" == Join(["SIMD" + n, fp, "RealFunctions.swift"], "+")
  {
    JoinThree("SIMD" + n, fp, "RealFunctions.swift", "+");
    assert "+RealFunctions.swift" == "+" + "RealFunctions.swift";
    assert "SIMD" + n + "+" + fp + "+RealFunctions.swift" == ("SIMD" + n) + "+" + (fp + "+" + "RealFunctions.swift");
  }

  lemma DerivativesNameJoin(n: string, fp: string)
    ensures "SIMD" + n + "+" + fp + "+RealFunctions+Derivatives.swift" == Join(["SIMD" + n, fp, "RealFunctions", "Derivatives.swift"], "+")
  {
    JoinFour("SIMD" + n, fp, "RealFunctions", "Derivatives.swift", "+");
    DerivativesSuffix("SIMD" + n + "+" + fp);
    assert "SIMD" + n + "+" + fp + "+" + ("RealFunctions" + "+" + "Derivatives.swift")
      == ("SIMD" + n) + "+" + (fp + "+" + ("RealFunctions" + "+" + "Derivatives.swift"));
  }

  lemma DerivativesSuffix(s: string)
    ensures s + "+RealFunctions+Derivatives.swift" == s + "+" + ("RealFunctions" + "+" + "Derivatives.swift")
  {
    assert "+RealFunctions+Derivatives.swift" == "+" + ("RealFunctions" + "+" + "Derivatives.swift");
  }

  lemma DigitsHaveNoPlus(w: nat)
    ensures '+' !in "SIMD" + NatToString(w)
  {
    var s := "SIMD" + NatToString(w);
    forall k | 0 <= k < |s| ensures s[k] != '+' {
      if k >= 4 {
        assert s[k] == NatToString(w)[k - 4];
      }
    }
  }

  lemma FieldsRoundTrip(a: Artifact)
    ensures ReadFields(FileNameFields(a)) == Some(a)
  {
    match a
    case GenericImplementation =>
    case ScalarDerivatives(fp) =>
    case SimdImplementation(w, fp) =>
      var f := FileNameFields(a);
      assert f[0][4..] == NatToString(w);
      ParseNatToString(w);
    case SimdDerivatives(w, fp) =>
      var f := FileNameFields(a);
      assert f[0][4..] == NatToString(w);
      ParseNatToString(w);
  }

  lemma FieldsHaveNoPlus(a: Artifact)
    requires Readable(a)
    ensures forall k :: 0 <= k < |FileNameFields(a)| ==> '+' !in FileNameFields(a)[k]
  {
    assert '+' !in "SIMD" && '+' !in "RealFunctions.swift" && '+' !in "RealFunctions" && '+' !in "Derivatives.swift";
    match a
    case GenericImplementation =>
    case ScalarDerivatives(fp) =>
    case SimdImplementation(w, fp) =>
      DigitsHaveNoPlus(w);
    case SimdDerivatives(w, fp) =>
      DigitsHaveNoPlus(w);
  }

  /** Reading a file name back gives the artifact it was made from. */
  lemma FileNameRoundTrip(a: Artifact)
    requires Readable(a)
    ensures ReadFileName(FileName(a)) == Some(a)
  {
    FileNameJoin(a);
    FieldsHaveNoPlus(a);
    SplitJoin(FileNameFields(a), "+");
    FieldsRoundTrip(a);
  }

  /** Different readable artifacts have different file names. */
  lemma FileNameInjective(a: Artifact, b: Artifact)
    requires Readable(a) && Readable(b) && FileName(a) == FileName(b)
    ensures a == b
  {
    FileNameRoundTrip(a);
    FileNameRoundTrip(b);
  }

  /** Two paths in one directory are equal only when their file names are. */
  lemma AppendingInjective(dir: string, x: string, y: string)
    requires Appending(dir, x) == Appending(dir, y)
    ensures x == y
  {
    var n := |dir + "/"|;
    assert Appending(dir, x)[n..] == x;
    assert Appending(dir, y)[n..] == y;
  }

  /** The paths of a plan without repeats and with readable artifacts are pairwise distinct. */
  lemma PathsDistinct(dir: string, plan: seq<Artifact>)
    requires NoDuplicates(plan)
    requires forall k :: 0 <= k < |plan| ==> Readable(plan[k])
    ensures NoDuplicates(Paths(dir, plan))
  {
    var ps := Paths(dir, plan);
    forall i, j | 0 <= i < j < |ps| ensures ps[i] != ps[j] {
      if ps[i] == ps[j] {
        AppendingInjective(dir, FileName(plan[i]), FileName(plan[j]));
        FileNameInjective(plan[i], plan[j]);
        assert false;
      }
    }
  }

  /** The 27 paths `main` writes into a directory are pairwise distinct. */
  lemma PlanPathsDistinct(dir: string)
    ensures NoDuplicates(Paths(dir, Plan()))
  {
    PlanForDistinct(FloatingPointTypes, SimdSizes);
    forall k | 0 <= k < |Plan()| ensures Readable(Plan()[k]) {
      PlanMembers(Plan()[k]);
      assert '+' !in "Float" && '+' !in "Double";
    }
    PathsDistinct(dir, Plan());
  }

  // ---------------------------------------------------------------------
  // Runs
  // ---------------------------------------------------------------------

  /**
    Writing a plan writes the files of the artifacts before the first one
    whose write fails, in order, and ends with that failure, or completes
    when no write fails.
   */
  lemma {:induction false} WritesStopAtFirstFailure(dir: string, plan: seq<Artifact>, failing: set<string>, render: Rendering -> string)
    ensures var k := FirstFailure(dir, plan, failing);
      Writes(dir, plan, failing, render)
        == (Files(dir, plan[..k], render), if k == |plan| then Completed else WriteFailed(PathOf(dir, plan[k])))
    decreases |plan|
  {
    if |plan| > 0 && PathOf(dir, plan[0]) !in failing {
      WritesStopAtFirstFailure(dir, plan[1..], failing, render);
      FirstWriteSucceeds(dir, plan, failing, render);
    } else if |plan| > 0 {
      assert plan[..0] == [];
    }
  }

  /** The inductive step: a successful first write puts its file before what writing the rest gives. */
  lemma FirstWriteSucceeds(dir: string, plan: seq<Artifact>, failing: set<string>, render: Rendering -> string)
    requires |plan| > 0 && PathOf(dir, plan[0]) !in failing
    requires var rest, k := plan[1..], FirstFailure(dir, plan[1..], failing);
      Writes(dir, rest, failing, render)
        == (Files(dir, rest[..k], render), if k == |rest| then Completed else WriteFailed(PathOf(dir, rest[k])))
    ensures var k := FirstFailure(dir, plan, failing);
      Writes(dir, plan, failing, render)
        == (Files(dir, plan[..k], render), if k == |plan| then Completed else WriteFailed(PathOf(dir, plan[k])))
  {
    var rest := plan[1..];
    var k := FirstFailure(dir, rest, failing);
    assert FirstFailure(dir, plan, failing) == 1 + k;
    assert plan[..1 + k][1..] == rest[..k];
    if k < |rest| {
      assert plan[1 + k] == rest[k];
    }
  }

  /** A run proceeds exactly when given one user argument (two in all); otherwise it writes nothing. */
  lemma RunArity(arguments: seq<string>, failing: set<string>)
    ensures Run(arguments, failing).1 == InvalidArguments <==> |arguments| != 2
    ensures |arguments| != 2 ==> Run(arguments, failing).0 == []
  {
    if |arguments| == 2 {
      WritesStopAtFirstFailure(arguments[1], Plan(), failing, Contents);
    }
  }

  /**
    Writing a plan writes the files of a prefix of it, in order, none of
    them to a failing path; it completes exactly when no write of the plan
    fails, and otherwise ends with the failure of the write after that
    prefix.
   */
  lemma WritesFailFast(dir: string, plan: seq<Artifact>, failing: set<string>, render: Rendering -> string)
    ensures var files, outcome := Writes(dir, plan, failing, render).0, Writes(dir, plan, failing, render).1;
      && |files| <= |plan|
      && files == Files(dir, plan[..|files|], render)
      && (forall k :: 0 <= k < |files| ==> files[k].path !in failing)
      && (outcome == Completed <==> WritesSucceed(dir, plan, failing))
      && (outcome != Completed ==> |files| < |plan| && outcome == WriteFailed(PathOf(dir, plan[|files|])) && PathOf(dir, plan[|files|]) in failing)
  {
    var k := FirstFailure(dir, plan, failing);
    var files := Files(dir, plan[..k], render);
    WritesStopAtFirstFailure(dir, plan, failing, render);
    assert |files| == k;
    forall j | 0 <= j < k ensures files[j].path !in failing {
      assert files[j].path == PathOf(dir, plan[j]);
    }
    if k == |plan| {
      assert WritesSucceed(dir, plan, failing);
    } else {
      var p := PathOf(dir, plan[k]);
      assert p in failing;
      assert !WritesSucceed(dir, plan, failing);
      assert Writes(dir, plan, failing, render).1 == WriteFailed(p);
    }
  }

  /**
    With one user argument, a run writes the files of a prefix of the plan,
    in order, none of them to a failing path; it completes exactly when no
    write of the plan fails, and otherwise ends with the failure of the
    write after that prefix.
   */
  lemma RunFailFast(arguments: seq<string>, failing: set<string>)
    requires |arguments| == 2
    ensures var dir, files, outcome := arguments[1], Run(arguments, failing).0, Run(arguments, failing).1;
      && |files| <= |Plan()|
      && files == Files(dir, Plan()[..|files|], Contents)
      && (forall k :: 0 <= k < |files| ==> files[k].path !in failing)
      && (outcome == Completed <==> WritesSucceed(dir, Plan(), failing))
      && (outcome != Completed ==> |files| < |Plan()| && outcome == WriteFailed(PathOf(dir, Plan()[|files|])) && PathOf(dir, Plan()[|files|]) in failing)
  {
    WritesFailFast(arguments[1], Plan(), failing, Contents);
  }

  /** When no write fails, writing a plan writes the file of every artifact, in order. */
  lemma WritesComplete(dir: string, plan: seq<Artifact>, failing: set<string>, render: Rendering -> string)
    requires WritesSucceed(dir, plan, failing)
    ensures Writes(dir, plan, failing, render) == (Files(dir, plan, render), Completed)
  {
    WritesStopAtFirstFailure(dir, plan, failing, render);
    assert plan[..|plan|] == plan;
  }

  /** When no write fails, a run writes the 27 files of the plan, in order, at pairwise distinct paths. */
  lemma RunCompletes(arguments: seq<string>, failing: set<string>)
    requires |arguments| == 2 && WritesSucceed(arguments[1], Plan(), failing)
    ensures Run(arguments, failing) == (Files(arguments[1], Plan(), Contents), Completed)
    ensures |Run(arguments, failing).0| == 27
    ensures NoDuplicates(Paths(arguments[1], Plan()))
  {
    WritesComplete(arguments[1], Plan(), failing, Contents);
    PlanCount();
    PlanPathsDistinct(arguments[1]);
  }

  // ---------------------------------------------------------------------
  // Renderings
  // ---------------------------------------------------------------------

  /**
    On the generator's lists, acceleration is on for widths 2, 4 and 8, and
    for width 16 over `Float`; it is off for widths 32 and 64, and for width
    16 over `Double`.
   */
  lemma AccelerationRule(w: nat, fp: string)
    requires w in SimdSizes && fp in FloatingPointTypes
    ensures Accelerated(w, fp) <==> w <= 8 || (w == 16 && fp == "Float")
  {
  }

  /** The files rendered with acceleration are exactly seven SIMD implementations. */
  lemma AcceleratedImplementations(a: Artifact)
    requires a in Plan()
    ensures (RenderingOf(a).Extension? && RenderingOf(a).simdAccelerated)
      <==> a in [SimdImplementation(2, "Float"), SimdImplementation(4, "Float"), SimdImplementation(8, "Float"),
                 SimdImplementation(16, "Float"),
                 SimdImplementation(2, "Double"), SimdImplementation(4, "Double"), SimdImplementation(8, "Double")]
  {
    PlanMembers(a);
  }

  /**
    An implementation file opens with the `simd` import exactly when it is
    the file of a SIMD type of width up to 8, or of width 16 over `Float`;
    the generic file never does.
   */
  lemma ImportsSimdWhenAccelerated(a: Artifact)
    requires a in Plan() && (a.GenericImplementation? || a.SimdImplementation?)
    ensures StartsWith(Contents(RenderingOf(a)), JoinLines(AcceleratedHeaderLines) + "\n")
      <==> a.SimdImplementation? && (a.width <= 8 || (a.width == 16 && a.fp == "Float"))
  {
    AcceleratedFlag(a);
    ExtensionHeader(RenderingOf(a));
  }

  lemma AcceleratedFlag(a: Artifact)
    requires a in Plan() && (a.GenericImplementation? || a.SimdImplementation?)
    ensures RenderingOf(a).Extension?
    ensures RenderingOf(a).simdAccelerated <==> a.SimdImplementation? && (a.width <= 8 || (a.width == 16 && a.fp == "Float"))
  {
    PlanMembers(a);
  }

  /** An implementation file's text opens with the `simd` import exactly when it is rendered accelerated. */
  lemma ExtensionHeader(r: Rendering)
    requires r.Extension?
    ensures StartsWith(Contents(r), JoinLines(AcceleratedHeaderLines) + "\n") <==> r.simdAccelerated
  {
    HeaderIffAccelerated(r.objectType, r.t, r.whereClause, r.simdAccelerated);
  }

  lemma SimdTypeIsTypeName(w: nat, fp: string)
    requires IsTypeName(fp)
    ensures IsTypeName(SimdType(w, fp))
  {
    var n := NatToString(w);
    var s := SimdType(w, fp);
    forall k | 0 <= k < |s| ensures IsIdentifierChar(s[k]) || s[k] == '<' || s[k] == '>' {
      if 4 <= k < 4 + |n| {
        assert s[k] == n[k - 4];
      } else if 5 + |n| <= k < 5 + |n| + |fp| {
        assert s[k] == fp[k - 5 - |n|];
      }
    }
  }

  /**
    Openings `opens` of three extensions of `objectType`, each constrained
    by a where-clause exactly when `constrained` holds.
   */
  predicate OpensAs(opens: seq<string>, objectType: string, constrained: bool)
  {
    && |opens| == 3
    && (forall k :: 0 <= k < 3 ==> ReadOpening(opens[k]).objectType == objectType)
    && (forall k :: 0 <= k < 3 ==> (ReadOpening(opens[k]).constraint.Some? <==> constrained))
  }

  /**
    The three extensions of an implementation file extend the generic
    `SIMD` protocol or the concrete SIMD type, and carry where-clauses
    exactly in the generic file.
   */
  lemma WhereClausesOnlyGeneric(a: Artifact)
    requires a.GenericImplementation? || (a.SimdImplementation? && IsTypeName(a.fp))
    ensures var r := RenderingOf(a);
      && Contents(r) == JoinLines(ExtensionLines(r.objectType, r.t, r.whereClause, r.simdAccelerated))
      && OpensAs(Openings(ExtensionLines(r.objectType, r.t, r.whereClause, r.simdAccelerated)),
                 if a.GenericImplementation? then "SIMD" else SimdType(a.width, a.fp), a.GenericImplementation?)
  {
    var r := RenderingOf(a);
    if a.SimdImplementation? {
      SimdTypeIsTypeName(a.width, a.fp);
    } else {
      assert IsTypeName("SIMD");
    }
    ExtensionReadsBack(r.objectType, r.t, r.whereClause, r.simdAccelerated);
  }

  /** An extension file's three openings read back as its object type, constrained exactly when asked. */
  lemma ExtensionReadsBack(objectType: string, t: string, whereClause: bool, simdAccelerated: bool)
    requires IsTypeName(objectType)
    ensures Contents(Extension(objectType, t, whereClause, simdAccelerated))
      == JoinLines(ExtensionLines(objectType, t, whereClause, simdAccelerated))
    ensures OpensAs(Openings(ExtensionLines(objectType, t, whereClause, simdAccelerated)), objectType, whereClause)
  {
    ExtensionText(objectType, t, whereClause, simdAccelerated);
    WhereClausesIffRequested(objectType, t, whereClause, simdAccelerated);
    HeadingsOpenAs(Openings(ExtensionLines(objectType, t, whereClause, simdAccelerated)), objectType, whereClause, ExtendedProtocols());
  }

  /** Headings naming `objectType`, with the k-th of `ps` as constraint when `whereClause` is set. */
  lemma HeadingsOpenAs(opens: seq<string>, objectType: string, whereClause: bool, ps: seq<string>)
    requires |opens| == 3 && |ps| == 3
    requires forall k :: 0 <= k < 3 ==> ReadOpening(opens[k]) == Heading(objectType, if whereClause then Some(ps[k]) else None)
    ensures OpensAs(opens, objectType, whereClause)
  {
  }

  /** A SIMD type name is longer than its precision's name. */
  lemma SimdTypeNotPrecision(w: nat, fp: string)
    ensures SimdType(w, fp) != fp
  {
    assert |SimdType(w, fp)| > |fp|;
  }

  /**
    Derivative files are rendered for their precision, with the target type
    equal to the precision exactly in the scalar files; so the `abs`
    registration is the scalar conditional exactly in the scalar files, and
    the lane-wise `replacing` form in the SIMD files.
   */
  lemma AbsBranchPerFile(a: Artifact)
    requires a.ScalarDerivatives? || a.SimdDerivatives?
    ensures var r := RenderingOf(a);
      && r == Derivatives(r.t, a.fp)
      && (r.t == a.fp <==> a.ScalarDerivatives?)
      && AbsAs(Registrations(r.t, a.fp)[30], a.ScalarDerivatives?)
  {
    DerivativesTarget(a);
    LastIsAbs(RenderingOf(a).t, a.fp);
  }

  /** A derivative file is rendered for its precision, with the precision as target type exactly in the scalar file. */
  lemma DerivativesTarget(a: Artifact)
    requires a.ScalarDerivatives? || a.SimdDerivatives?
    ensures var r := RenderingOf(a); r == Derivatives(r.t, a.fp) && (r.t == a.fp <==> a.ScalarDerivatives?)
  {
    if a.SimdDerivatives? {
      SimdTypeNotPrecision(a.width, a.fp);
    }
  }
}
