/**
  The generator executable's entry point, `CodeGenerator.main`: it checks
  that it was given exactly one user argument, the output directory, and
  then writes one file per artifact: the generic `SIMD` implementation, and
  for each floating-point type its scalar derivatives and, for each SIMD
  width, a concrete implementation and its derivatives. A write that fails
  stops the run.

  The file system is a parameter: `failing` is the set of paths whose write
  fails; the written files are returned in order.
 */
module CodeGenerator {
  import opened Text
  import opened Records
  import opened RealFunctionsGenerator
  import opened RealFunctionsDerivativesGenerator

  const FloatingPointTypes: seq<string> := ["Float", "Double"]
  const SimdSizes: seq<nat> := [2, 4, 8, 16, 32, 64]

  // ---------------------------------------------------------------------
  // Artifacts, their file names and their renderings
  // ---------------------------------------------------------------------

  /** The four kinds of generated file. */
  datatype Artifact =
    | GenericImplementation
    | ScalarDerivatives(fp: string)
    | SimdImplementation(width: nat, fp: string)
    | SimdDerivatives(width: nat, fp: string)

  /** `SIMD\(simdSize)<\(floatingPointType)>`. */
  function SimdType(width: nat, fp: string): string
  {
    "SIMD" + NatToString(width) + "<" + fp + ">"
  }

  /** The file name each artifact is written under. */
  function FileName(a: Artifact): string
  {
    match a
    case GenericImplementation => "SIMD+RealFunctions.swift"
    case ScalarDerivatives(fp) => fp + "+RealFunctions+Derivatives.swift"
    case SimdImplementation(w, fp) => "SIMD" + NatToString(w) + "+" + fp + "+RealFunctions.swift"
    case SimdDerivatives(w, fp) => "SIMD" + NatToString(w) + "+" + fp + "+RealFunctions+Derivatives.swift"
  }

  /** `URL.appending(component:)`, without normalisation. */
  function Appending(dir: string, component: string): string
  {
    dir + "/" + component
  }

  function PathOf(dir: string, a: Artifact): string
  {
    Appending(dir, FileName(a))
  }

  /** The arguments a file's text is rendered with. */
  datatype Rendering =
    | Extension(objectType: string, t: string, whereClause: bool, simdAccelerated: bool)
    | Derivatives(t: string, fp: string)

  /** Whether the `simd` library is used for a concrete SIMD type. */
  function Accelerated(width: nat, fp: string): bool
  {
    !(width > 16 || (width == 16 && fp == "Double"))
  }

  function RenderingOf(a: Artifact): Rendering
  {
    match a
    case GenericImplementation => Extension("SIMD", "Self", true, false)
    case ScalarDerivatives(fp) => Derivatives(fp, fp)
    case SimdImplementation(w, fp) => Extension(SimdType(w, fp), SimdType(w, fp), false, Accelerated(w, fp))
    case SimdDerivatives(w, fp) => Derivatives(SimdType(w, fp), fp)
  }

  function Contents(r: Rendering): string
  {
    match r
    case Extension(objectType, t, whereClause, simdAccelerated) =>
      RealFunctionsExtension(objectType, t, whereClause, simdAccelerated)
    case Derivatives(t, fp) => RealFunctionsDerivativesExtension(t, fp)
  }

  // ---------------------------------------------------------------------
  // The order of the writes
  // ---------------------------------------------------------------------

  /** For each width: the implementation, then the derivatives. */
  function WidthsPlan(fp: string, widths: seq<nat>): seq<Artifact>
    decreases |widths|
  {
    if |widths| == 0 then []
    else [SimdImplementation(widths[0], fp), SimdDerivatives(widths[0], fp)] + WidthsPlan(fp, widths[1..])
  }

  /** The iterations of the outer loop: scalar derivatives, then every width. */
  function PrecisionsPlan(fps: seq<string>, widths: seq<nat>): seq<Artifact>
    decreases |fps|
  {
    if |fps| == 0 then []
    else ([ScalarDerivatives(fps[0])] + WidthsPlan(fps[0], widths)) + PrecisionsPlan(fps[1..], widths)
  }

  /** The generic file, then every iteration of the outer loop. */
  function PlanFor(fps: seq<string>, widths: seq<nat>): seq<Artifact>
  {
    [GenericImplementation] + PrecisionsPlan(fps, widths)
  }

  /** Every artifact, in the order `main` writes them. */
  function Plan(): seq<Artifact>
  {
    PlanFor(FloatingPointTypes, SimdSizes)
  }

  // ---------------------------------------------------------------------
  // Running the generator
  // ---------------------------------------------------------------------

  datatype File = File(path: string, contents: string)

  datatype Outcome = Completed | InvalidArguments | WriteFailed(path: string)

  /** The file of artifact `a` in `dir`, its text produced by `render`. */
  function FileFor(dir: string, a: Artifact, render: Rendering -> string): File
  {
    File(PathOf(dir, a), render(RenderingOf(a)))
  }

  function Files(dir: string, plan: seq<Artifact>, render: Rendering -> string): (files: seq<File>)
    ensures |files| == |plan|
    ensures forall k :: 0 <= k < |plan| ==> files[k] == FileFor(dir, plan[k], render)
    decreases |plan|
  {
    if |plan| == 0 then [] else [FileFor(dir, plan[0], render)] + Files(dir, plan[1..], render)
  }

  /** The path each artifact of `plan` is written to, in plan order. */
  function Paths(dir: string, plan: seq<Artifact>): seq<string>
  {
    seq(|plan|, k requires 0 <= k < |plan| => PathOf(dir, plan[k]))
  }

  /** No artifact of `plan` is written to a failing path. */
  predicate WritesSucceed(dir: string, plan: seq<Artifact>, failing: set<string>)
  {
    forall k :: 0 <= k < |plan| ==> PathOf(dir, plan[k]) !in failing
  }

  /** The position of the first artifact whose write fails, or `|plan|` when none does. */
  function FirstFailure(dir: string, plan: seq<Artifact>, failing: set<string>): (k: nat)
    ensures k <= |plan|
    ensures forall j :: 0 <= j < k ==> PathOf(dir, plan[j]) !in failing
    ensures k < |plan| ==> PathOf(dir, plan[k]) in failing
    decreases |plan|
  {
    if |plan| == 0 then 0
    else if PathOf(dir, plan[0]) in failing then 0
    else 1 + FirstFailure(dir, plan[1..], failing)
  }

  /**
    Writing `plan` into `dir`, one artifact after the other: the files
    written, and how it ended. A failing write ends the run.
   */
  function Writes(dir: string, plan: seq<Artifact>, failing: set<string>, render: Rendering -> string): (seq<File>, Outcome)
    decreases |plan|
  {
    if |plan| == 0 then ([], Completed)
    else if PathOf(dir, plan[0]) in failing then ([], WriteFailed(PathOf(dir, plan[0])))
    else var r := Writes(dir, plan[1..], failing, render); ([FileFor(dir, plan[0], render)] + r.0, r.1)
  }

  /**
    What a run with command-line `arguments` writes, and how it ends: with
    other than two arguments nothing; otherwise every artifact in order, up
    to the first failing write, into the directory `arguments[1]`.
   */
  function Run(arguments: seq<string>, failing: set<string>): (seq<File>, Outcome)
  {
    if |arguments| != 2 then ([], InvalidArguments) else Writes(arguments[1], Plan(), failing, Contents)
  }

  /** `files` written before what `r` writes. */
  function Prepend(files: seq<File>, r: (seq<File>, Outcome)): (seq<File>, Outcome)
  {
    (files + r.0, r.1)
  }

  lemma PrependTwice(a: seq<File>, b: seq<File>, r: (seq<File>, Outcome))
    ensures Prepend(a, Prepend(b, r)) == Prepend(a + b, r)
  {
    assert a + (b + r.0) == (a + b) + r.0;
  }

  /** Writing a plan starts with its first artifact: its failure ends the run, its success comes before the rest. */
  lemma WritesCons(dir: string, a: Artifact, rest: seq<Artifact>, failing: set<string>, render: Rendering -> string)
    ensures Writes(dir, [a] + rest, failing, render)
      == if PathOf(dir, a) in failing then ([], WriteFailed(PathOf(dir, a)))
         else Prepend([FileFor(dir, a, render)], Writes(dir, rest, failing, render))
  {
    assert ([a] + rest)[0] == a && ([a] + rest)[1..] == rest;
  }

  /** Writing nothing completes. */
  lemma WritesNothing(dir: string, failing: set<string>, render: Rendering -> string)
    ensures Writes(dir, [], failing, render) == ([], Completed)
  {
  }

  /** Writing `a` then `b`: what writing `a` gives when a write of `a` fails, else the files of `a` before what writing `b` gives. */
  lemma {:induction false} WritesConcat(dir: string, a: seq<Artifact>, b: seq<Artifact>, failing: set<string>, render: Rendering -> string)
    ensures Writes(dir, a + b, failing, render)
      == if Writes(dir, a, failing, render).1 == Completed then Prepend(Writes(dir, a, failing, render).0, Writes(dir, b, failing, render))
         else Writes(dir, a, failing, render)
    decreases |a|
  {
    if |a| == 0 {
      assert a + b == b;
      WritesNothing(dir, failing, render);
      assert [] + Writes(dir, b, failing, render).0 == Writes(dir, b, failing, render).0;
    } else {
      assert a == [a[0]] + a[1..];
      assert a + b == [a[0]] + (a[1..] + b);
      WritesCons(dir, a[0], a[1..] + b, failing, render);
      WritesCons(dir, a[0], a[1..], failing, render);
      WritesConcat(dir, a[1..], b, failing, render);
      if PathOf(dir, a[0]) !in failing && Writes(dir, a[1..], failing, render).1 == Completed {
        PrependTwice([FileFor(dir, a[0], render)], Writes(dir, a[1..], failing, render).0, Writes(dir, b, failing, render));
      }
    }
  }

  /** One more iteration of the outer loop: its scalar derivatives, its widths, then the later iterations. */
  lemma NextPrecision(fps: seq<string>, i: nat, widths: seq<nat>)
    requires i < |fps|
    ensures PrecisionsPlan(fps[i..], widths)
      == [ScalarDerivatives(fps[i])] + (WidthsPlan(fps[i], widths) + PrecisionsPlan(fps[i + 1..], widths))
  {
    assert fps[i..][1..] == fps[i + 1..];
  }

  /** One more iteration of the inner loop: the implementation, the derivatives, then the later widths. */
  lemma NextWidth(fp: string, widths: seq<nat>, j: nat)
    requires j < |widths|
    ensures WidthsPlan(fp, widths[j..])
      == [SimdImplementation(widths[j], fp)] + ([SimdDerivatives(widths[j], fp)] + WidthsPlan(fp, widths[j + 1..]))
  {
    assert widths[j..][1..] == widths[j + 1..];
  }

  /** An iteration of the inner loop whose two writes succeed writes both files, then the later widths. */
  lemma WidthStep(dir: string, fp: string, widths: seq<nat>, j: nat, failing: set<string>, render: Rendering -> string,
                  before: seq<File>)
    requires j < |widths|
    requires PathOf(dir, SimdImplementation(widths[j], fp)) !in failing
    requires PathOf(dir, SimdDerivatives(widths[j], fp)) !in failing
    ensures Prepend(before, Writes(dir, WidthsPlan(fp, widths[j..]), failing, render))
      == Prepend(before + [FileFor(dir, SimdImplementation(widths[j], fp), render)]
                        + [FileFor(dir, SimdDerivatives(widths[j], fp), render)],
                 Writes(dir, WidthsPlan(fp, widths[j + 1..]), failing, render))
  {
    var impl, deriv, rest := SimdImplementation(widths[j], fp), SimdDerivatives(widths[j], fp), WidthsPlan(fp, widths[j + 1..]);
    var r := Writes(dir, rest, failing, render);
    NextWidth(fp, widths, j);
    WritesCons(dir, impl, [deriv] + rest, failing, render);
    WritesCons(dir, deriv, rest, failing, render);
    assert before + ([FileFor(dir, impl, render)] + ([FileFor(dir, deriv, render)] + r.0))
      == before + [FileFor(dir, impl, render)] + [FileFor(dir, deriv, render)] + r.0;
  }

  /** An iteration of the inner loop whose first write fails ends the run with that failure. */
  lemma WidthFailsFirst(dir: string, fp: string, widths: seq<nat>, j: nat, failing: set<string>, render: Rendering -> string,
                        before: seq<File>)
    requires j < |widths|
    requires PathOf(dir, SimdImplementation(widths[j], fp)) in failing
    ensures Prepend(before, Writes(dir, WidthsPlan(fp, widths[j..]), failing, render))
      == (before, WriteFailed(PathOf(dir, SimdImplementation(widths[j], fp))))
  {
    var deriv, rest := SimdDerivatives(widths[j], fp), WidthsPlan(fp, widths[j + 1..]);
    NextWidth(fp, widths, j);
    WritesCons(dir, SimdImplementation(widths[j], fp), [deriv] + rest, failing, render);
    assert before + [] == before;
  }

  /** An iteration of the inner loop whose second write fails ends the run after the implementation file. */
  lemma WidthFailsSecond(dir: string, fp: string, widths: seq<nat>, j: nat, failing: set<string>, render: Rendering -> string,
                         before: seq<File>)
    requires j < |widths|
    requires PathOf(dir, SimdImplementation(widths[j], fp)) !in failing
    requires PathOf(dir, SimdDerivatives(widths[j], fp)) in failing
    ensures Prepend(before, Writes(dir, WidthsPlan(fp, widths[j..]), failing, render))
      == (before + [FileFor(dir, SimdImplementation(widths[j], fp), render)],
          WriteFailed(PathOf(dir, SimdDerivatives(widths[j], fp))))
  {
    var impl, deriv, rest := SimdImplementation(widths[j], fp), SimdDerivatives(widths[j], fp), WidthsPlan(fp, widths[j + 1..]);
    NextWidth(fp, widths, j);
    WritesCons(dir, impl, [deriv] + rest, failing, render);
    WritesCons(dir, deriv, rest, failing, render);
    assert [FileFor(dir, impl, render)] + [] == [FileFor(dir, impl, render)];
  }

  /**
    `CodeGenerator.main`: the argument check, then the writes of every
    artifact into the directory given as the one user argument, each text
    rendered by `realFunctionsExtension` or `realFunctionsDerivativesExtension`.
   */
  method Generate(arguments: seq<string>, failing: set<string>) returns (written: seq<File>, outcome: Outcome)
    ensures (written, outcome) == Run(arguments, failing)
  {
    if |arguments| != 2 {
      return [], InvalidArguments;
    }
    var output := arguments[1];
    written, outcome := WriteArtifacts(output, FloatingPointTypes, SimdSizes, failing, Contents);
  }

  /**
    One `write(to:atomically:encoding:)`: `File(path, code)` is added to
    `written`, or, when the write to `path` fails, the run stops with that
    failure and nothing is added.
   */
  method Write(written: seq<File>, path: string, code: string, failing: set<string>)
    returns (written': seq<File>, outcome: Outcome)
    ensures path in failing ==> written' == written && outcome == WriteFailed(path)
    ensures path !in failing ==> written' == written + [File(path, code)] && outcome == Completed
  {
    if path in failing {
      return written, WriteFailed(path);
    }
    return written + [File(path, code)], Completed;
  }

  /**
    The body of `main` after the argument check: the generic file, then for
    each floating-point type its scalar derivatives and the files of every
    SIMD width. `render` stands for the two text generators, called with the
    arguments `main` passes them. The first failing write ends the run.
   */
  method WriteArtifacts(output: string, floatingPointTypes: seq<string>, simdSizes: seq<nat>, failing: set<string>,
                        render: Rendering -> string)
    returns (written: seq<File>, outcome: Outcome)
    ensures (written, outcome) == Writes(output, PlanFor(floatingPointTypes, simdSizes), failing, render)
  {
    ghost var all := Writes(output, PlanFor(floatingPointTypes, simdSizes), failing, render);

    var path := Appending(output, "SIMD+RealFunctions.swift");
    var code := render(Extension(objectType := "SIMD", t := "Self", whereClause := true, simdAccelerated := false));
    WritesCons(output, GenericImplementation, PrecisionsPlan(floatingPointTypes, simdSizes), failing, render);
    assert File(path, code) == FileFor(output, GenericImplementation, render);
    written, outcome := Write([], path, code, failing);
    if outcome != Completed {
      return;
    }
    assert written == [File(path, code)];
    assert all == Prepend(written, Writes(output, PrecisionsPlan(floatingPointTypes, simdSizes), failing, render));
    assert floatingPointTypes[0..] == floatingPointTypes;

    var i := 0;
    while i < |floatingPointTypes|
      invariant 0 <= i <= |floatingPointTypes|
      invariant outcome == Completed
      invariant all == Prepend(written, Writes(output, PrecisionsPlan(floatingPointTypes[i..], simdSizes), failing, render))
    {
      var floatingPointType := floatingPointTypes[i];
      ghost var widths := WidthsPlan(floatingPointType, simdSizes);
      ghost var later := PrecisionsPlan(floatingPointTypes[i + 1..], simdSizes);
      NextPrecision(floatingPointTypes, i, simdSizes);
      WritesCons(output, ScalarDerivatives(floatingPointType), widths + later, failing, render);

      path := Appending(output, floatingPointType + "+RealFunctions+Derivatives.swift");
      var t := floatingPointType;
      code := render(Derivatives(t := t, fp := floatingPointType));
      assert File(path, code) == FileFor(output, ScalarDerivatives(floatingPointType), render);
      ghost var before := written;
      written, outcome := Write(written, path, code, failing);
      if outcome != Completed {
        assert before + [] == before;
        return;
      }
      PrependTwice(before, [File(path, code)], Writes(output, widths + later, failing, render));

      var files;
      files, outcome := WriteWidths(output, floatingPointType, simdSizes, failing, render);
      WritesConcat(output, widths, later, failing, render);
      if outcome != Completed {
        return written + files, outcome;
      }
      PrependTwice(written, files, Writes(output, later, failing, render));
      written := written + files;
      i := i + 1;
    }
    assert floatingPointTypes[i..] == [];
    WritesNothing(output, failing, render);
    assert written + [] == written;
  }

  /**
    The inner loop of `main` for one floating-point type: for each SIMD
    width, the concrete implementation, accelerated below width 16 and at
    width 16 for `Float`, then its derivatives.
   */
  method WriteWidths(output: string, floatingPointType: string, simdSizes: seq<nat>, failing: set<string>,
                     render: Rendering -> string)
    returns (written: seq<File>, outcome: Outcome)
    ensures (written, outcome) == Writes(output, WidthsPlan(floatingPointType, simdSizes), failing, render)
  {
    ghost var all := Writes(output, WidthsPlan(floatingPointType, simdSizes), failing, render);
    written, outcome := [], Completed;
    assert simdSizes[0..] == simdSizes;
    assert [] + all.0 == all.0;
    var j := 0;
    while j < |simdSizes|
      invariant 0 <= j <= |simdSizes|
      invariant outcome == Completed
      invariant all == Prepend(written, Writes(output, WidthsPlan(floatingPointType, simdSizes[j..]), failing, render))
    {
      var simdSize := simdSizes[j];
      var path := Appending(output, "SIMD" + NatToString(simdSize) + "+" + floatingPointType + "+RealFunctions.swift");
      var simdType := "SIMD" + NatToString(simdSize) + "<" + floatingPointType + ">";
      var simdAccelerated: bool;
      if simdSize > 16 || (simdSize == 16 && floatingPointType == "Double") {
        simdAccelerated := false;
      } else {
        simdAccelerated := true;
      }
      var code := render(Extension(objectType := simdType, t := simdType, whereClause := false, simdAccelerated := simdAccelerated));
      assert File(path, code) == FileFor(output, SimdImplementation(simdSize, floatingPointType), render);
      ghost var before := written;
      written, outcome := Write(written, path, code, failing);
      if outcome != Completed {
        WidthFailsFirst(output, floatingPointType, simdSizes, j, failing, render, before);
        return;
      }

      path := Appending(output, "SIMD" + NatToString(simdSize) + "+" + floatingPointType + "+RealFunctions+Derivatives.swift");
      var t := "SIMD" + NatToString(simdSize) + "<" + floatingPointType + ">";
      code := render(Derivatives(t := t, fp := floatingPointType));
      assert File(path, code) == FileFor(output, SimdDerivatives(simdSize, floatingPointType), render);
      written, outcome := Write(written, path, code, failing);
      if outcome != Completed {
        WidthFailsSecond(output, floatingPointType, simdSizes, j, failing, render, before);
        return;
      }
      WidthStep(output, floatingPointType, simdSizes, j, failing, render, before);
      j := j + 1;
    }
    assert simdSizes[j..] == [];
    WritesNothing(output, failing, render);
    assert written + [] == written;
  }
}
