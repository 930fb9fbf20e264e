/**
  The build plugin, `CodeGeneratorPlugin.createBuildCommands`: it declares
  the files the generator will write into the plugin's work directory and
  runs the generator with that directory as its one argument. The work
  directory is a parameter; the plugin API's build command is the pair of
  its argument list and its declared output files.
 */
module CodeGeneratorPlugin {
  import opened Text
  import opened CodeGenerator
  import CodeGeneratorProperties

  const PluginFloatingPointTypes: seq<string> := ["Float", "Double"]
  const PluginSimdSizes: seq<nat> := [2, 4, 8, 16, 32, 64]

  /** The plugin spells out the same precisions and widths as the generator, in the same order. */
  lemma SameLists()
    ensures PluginFloatingPointTypes == FloatingPointTypes && PluginSimdSizes == SimdSizes
  {
  }

  /** The inner `flatMap`: for each width, the implementation path, then the derivatives path. */
  function WidthFiles(output: string, fp: string, widths: seq<nat>): seq<string>
    decreases |widths|
  {
    if |widths| == 0 then []
    else [ Appending(output, "SIMD" + NatToString(widths[0]) + "+" + fp + "+RealFunctions.swift"),
           Appending(output, "SIMD" + NatToString(widths[0]) + "+" + fp + "+RealFunctions+Derivatives.swift") ]
         + WidthFiles(output, fp, widths[1..])
  }

  /** The outer `flatMap`: for each precision, its widths' paths, then its scalar derivatives path. */
  function PrecisionFiles(output: string, fps: seq<string>, widths: seq<nat>): seq<string>
    decreases |fps|
  {
    if |fps| == 0 then []
    else (WidthFiles(output, fps[0], widths) + [Appending(output, fps[0] + "+RealFunctions+Derivatives.swift")])
         + PrecisionFiles(output, fps[1..], widths)
  }

  /** `outputFiles`: the precisions' paths, then the generic implementation's path. */
  function OutputFiles(output: string): seq<string>
  {
    PrecisionFiles(output, PluginFloatingPointTypes, PluginSimdSizes) + [Appending(output, "SIMD+RealFunctions.swift")]
  }

  /** The arguments of the build command: the work directory alone. */
  function BuildArguments(output: string): seq<string>
  {
    [output]
  }

  // ---------------------------------------------------------------------
  // The declared artifacts
  // ---------------------------------------------------------------------

  /** The artifacts the plugin declares, precision by precision. */
  function DeclaredPrecisions(fps: seq<string>, widths: seq<nat>): seq<Artifact>
    decreases |fps|
  {
    if |fps| == 0 then []
    else (WidthsPlan(fps[0], widths) + [ScalarDerivatives(fps[0])]) + DeclaredPrecisions(fps[1..], widths)
  }

  /** Every artifact the plugin declares, in its order. */
  function DeclaredArtifacts(): seq<Artifact>
  {
    DeclaredPrecisions(PluginFloatingPointTypes, PluginSimdSizes) + [GenericImplementation]
  }

  lemma PathsConcat(dir: string, a: seq<Artifact>, b: seq<Artifact>)
    ensures Paths(dir, a + b) == Paths(dir, a) + Paths(dir, b)
  {
    var l, pa, pb := Paths(dir, a + b), Paths(dir, a), Paths(dir, b);
    assert |l| == |pa + pb|;
    forall k | 0 <= k < |l| ensures l[k] == (pa + pb)[k] {
      if k < |a| {
        assert l[k] == PathOf(dir, a[k]) == pa[k];
      } else {
        assert l[k] == PathOf(dir, b[k - |a|]) == pb[k - |a|];
      }
    }
  }

  lemma {:induction false} WidthFilesArePaths(output: string, fp: string, widths: seq<nat>)
    ensures WidthFiles(output, fp, widths) == Paths(output, WidthsPlan(fp, widths))
    decreases |widths|
  {
    if |widths| > 0 {
      var w := widths[0];
      var head := [SimdImplementation(w, fp), SimdDerivatives(w, fp)];
      WidthFilesArePaths(output, fp, widths[1..]);
      PathsConcat(output, head, WidthsPlan(fp, widths[1..]));
      assert Paths(output, head) == [PathOf(output, head[0]), PathOf(output, head[1])];
    }
  }

  lemma {:induction false} PrecisionFilesArePaths(output: string, fps: seq<string>, widths: seq<nat>)
    ensures PrecisionFiles(output, fps, widths) == Paths(output, DeclaredPrecisions(fps, widths))
    decreases |fps|
  {
    if |fps| > 0 {
      var fp := fps[0];
      var widthsPlan := WidthsPlan(fp, widths);
      PrecisionFilesArePaths(output, fps[1..], widths);
      WidthFilesArePaths(output, fp, widths);
      PathsConcat(output, widthsPlan + [ScalarDerivatives(fp)], DeclaredPrecisions(fps[1..], widths));
      PathsConcat(output, widthsPlan, [ScalarDerivatives(fp)]);
      assert Paths(output, [ScalarDerivatives(fp)]) == [PathOf(output, ScalarDerivatives(fp))];
    }
  }

  /** The declared paths are those of the declared artifacts, in order. */
  lemma OutputFilesArePaths(output: string)
    ensures OutputFiles(output) == Paths(output, DeclaredArtifacts())
  {
    PrecisionFilesArePaths(output, PluginFloatingPointTypes, PluginSimdSizes);
    PathsConcat(output, DeclaredPrecisions(PluginFloatingPointTypes, PluginSimdSizes), [GenericImplementation]);
    assert Paths(output, [GenericImplementation]) == [PathOf(output, GenericImplementation)];
  }

  lemma {:induction false} DeclaredPrecisionsLength(fps: seq<string>, widths: seq<nat>)
    ensures |DeclaredPrecisions(fps, widths)| == |fps| * (1 + 2 * |widths|)
    decreases |fps|
  {
    if |fps| > 0 {
      var m := 1 + 2 * |widths|;
      DeclaredPrecisionsLength(fps[1..], widths);
      CodeGeneratorProperties.WidthsPlanLength(fps[0], widths);
      assert (|fps| - 1) * m + m == |fps| * m;
    }
  }

  /** The plugin declares 2 * (6 * 2 + 1) + 1 = 27 files. */
  lemma OutputFilesCount(output: string)
    ensures |DeclaredArtifacts()| == 27 && |OutputFiles(output)| == 27
  {
    DeclaredPrecisionsLength(PluginFloatingPointTypes, PluginSimdSizes);
    OutputFilesArePaths(output);
  }

  lemma {:induction false} DeclaredPrecisionsMembers(fps: seq<string>, widths: seq<nat>, a: Artifact)
    ensures a in DeclaredPrecisions(fps, widths) <==> !a.GenericImplementation? && CodeGeneratorProperties.Planned(fps, widths, a)
    decreases |fps|
  {
    if |fps| > 0 {
      DeclaredPrecisionsMembers(fps[1..], widths, a);
      CodeGeneratorProperties.WidthsPlanMembers(fps[0], widths, a);
      assert fps == [fps[0]] + fps[1..];
    }
  }

  /** The plugin declares exactly the artifacts the generator writes. */
  lemma DeclaredMembers(a: Artifact)
    ensures a in DeclaredArtifacts() <==> a in Plan()
  {
    DeclaredPrecisionsMembers(PluginFloatingPointTypes, PluginSimdSizes, a);
    CodeGeneratorProperties.PlanMembers(a);
  }

  lemma {:induction false} DeclaredPrecisionsDistinct(fps: seq<string>, widths: seq<nat>)
    requires NoDuplicates(fps) && NoDuplicates(widths)
    ensures NoDuplicates(DeclaredPrecisions(fps, widths))
    decreases |fps|
  {
    if |fps| > 0 {
      var fp, rest := fps[0], fps[1..];
      assert NoDuplicates(rest) by {
        forall i, j | 0 <= i < j < |rest| ensures rest[i] != rest[j] {
          assert rest[i] == fps[i + 1] && rest[j] == fps[j + 1];
        }
      }
      assert fp !in rest by {
        forall k | 0 <= k < |rest| ensures rest[k] != fp {
          assert rest[k] == fps[k + 1];
        }
      }
      DeclaredPrecisionsDistinct(rest, widths);
      CodeGeneratorProperties.WidthsPlanDistinct(fp, widths);
      var scalar := [ScalarDerivatives(fp)];
      var block := WidthsPlan(fp, widths) + scalar;
      forall x | x in WidthsPlan(fp, widths) ensures x !in scalar {
        CodeGeneratorProperties.WidthsPlanMembers(fp, widths, x);
      }
      CodeGeneratorProperties.NoDuplicatesConcat(WidthsPlan(fp, widths), scalar);
      forall x | x in block ensures x !in DeclaredPrecisions(rest, widths) {
        CodeGeneratorProperties.WidthsPlanMembers(fp, widths, x);
        DeclaredPrecisionsMembers(rest, widths, x);
      }
      CodeGeneratorProperties.NoDuplicatesConcat(block, DeclaredPrecisions(rest, widths));
    }
  }

  /** The declared paths are pairwise distinct. */
  lemma OutputFilesDistinct(output: string)
    ensures NoDuplicates(OutputFiles(output))
  {
    var fps, widths := PluginFloatingPointTypes, PluginSimdSizes;
    DeclaredPrecisionsDistinct(fps, widths);
    forall x | x in DeclaredPrecisions(fps, widths) ensures x !in [GenericImplementation] {
      DeclaredPrecisionsMembers(fps, widths, x);
    }
    CodeGeneratorProperties.NoDuplicatesConcat(DeclaredPrecisions(fps, widths), [GenericImplementation]);
    var declared := DeclaredArtifacts();
    forall k | 0 <= k < |declared| ensures CodeGeneratorProperties.Readable(declared[k]) {
      DeclaredMembers(declared[k]);
      CodeGeneratorProperties.PlanMembers(declared[k]);
      assert '+' !in "Float" && '+' !in "Double";
    }
    CodeGeneratorProperties.PathsDistinct(output, declared);
    OutputFilesArePaths(output);
  }

  /** A path of artifacts in `a` is a path of artifacts in `b` when every artifact of `a` is in `b`. */
  lemma PathsSubset(dir: string, a: seq<Artifact>, b: seq<Artifact>, p: string)
    requires forall x :: x in a ==> x in b
    requires p in Paths(dir, a)
    ensures p in Paths(dir, b)
  {
    var k :| 0 <= k < |a| && Paths(dir, a)[k] == p;
    assert a[k] in a;
    var j :| 0 <= j < |b| && b[j] == a[k];
    assert Paths(dir, b)[j] == p;
  }

  /** A path is declared exactly when the generator writes it, into the same directory. */
  lemma OutputFilesMatchGenerator(output: string)
    ensures forall p :: p in OutputFiles(output) <==> p in Paths(output, Plan())
  {
    OutputFilesArePaths(output);
    var declared, plan := DeclaredArtifacts(), Plan();
    forall x | true ensures x in declared <==> x in plan {
      DeclaredMembers(x);
    }
    forall p | p in Paths(output, declared) ensures p in Paths(output, plan) {
      PathsSubset(output, declared, plan, p);
    }
    forall p | p in Paths(output, plan) ensures p in Paths(output, declared) {
      PathsSubset(output, plan, declared, p);
    }
  }

  /** The declarations of one precision: its widths, then its scalar derivatives. */
  function Block(fp: string): seq<Artifact>
  {
    WidthsPlan(fp, PluginSimdSizes) + [ScalarDerivatives(fp)]
  }

  lemma DeclaredLayout()
    ensures DeclaredArtifacts() == Block("Float") + Block("Double") + [GenericImplementation]
    ensures |Block("Float")| == 13 && |Block("Double")| == 13
  {
    var fps := PluginFloatingPointTypes;
    CodeGeneratorProperties.WidthsPlanLength("Float", PluginSimdSizes);
    CodeGeneratorProperties.WidthsPlanLength("Double", PluginSimdSizes);
    assert fps[1..] == ["Double"] && fps[1..][1..] == [];
    assert Block("Double") + [] == Block("Double");
  }

  /** Positions in two blocks of 13 followed by a tail. */
  lemma TwoBlocksIndex(declared: seq<Artifact>, a: seq<Artifact>, b: seq<Artifact>, tail: seq<Artifact>, k: nat)
    requires declared == a + b + tail && |a| == 13 && |b| == 13 && k < 13
    ensures declared[k] == a[k] && declared[13 + k] == b[k]
    ensures |declared| == 26 + |tail| && (|tail| > 0 ==> declared[26] == tail[0])
  {
  }

  /** The scalar derivatives close a precision's block of 13. */
  lemma BlockLast(fp: string)
    ensures |Block(fp)| == 13 && Block(fp)[12] == ScalarDerivatives(fp)
  {
    CodeGeneratorProperties.WidthsPlanLength(fp, PluginSimdSizes);
  }

  lemma DeclaredEnds()
    ensures |DeclaredArtifacts()| == 27 && DeclaredArtifacts()[26] == GenericImplementation
    ensures DeclaredArtifacts()[12] == ScalarDerivatives("Float") && DeclaredArtifacts()[25] == ScalarDerivatives("Double")
  {
    DeclaredLayout();
    BlockLast("Float");
    BlockLast("Double");
    TwoBlocksIndex(DeclaredArtifacts(), Block("Float"), Block("Double"), [GenericImplementation], 12);
  }

  lemma DeclaredWidths()
    ensures forall i, j :: 0 <= i < 2 && 0 <= j < 6 ==>
      && 13 * i + 2 * j + 1 < |DeclaredArtifacts()|
      && DeclaredArtifacts()[13 * i + 2 * j] == SimdImplementation(PluginSimdSizes[j], PluginFloatingPointTypes[i])
      && DeclaredArtifacts()[13 * i + 2 * j + 1] == SimdDerivatives(PluginSimdSizes[j], PluginFloatingPointTypes[i])
  {
    forall i, j | 0 <= i < 2 && 0 <= j < 6
      ensures && 13 * i + 2 * j + 1 < |DeclaredArtifacts()|
              && DeclaredArtifacts()[13 * i + 2 * j] == SimdImplementation(PluginSimdSizes[j], PluginFloatingPointTypes[i])
              && DeclaredArtifacts()[13 * i + 2 * j + 1] == SimdDerivatives(PluginSimdSizes[j], PluginFloatingPointTypes[i])
    {
      DeclaredWidth(i, j);
    }
  }

  lemma DeclaredWidth(i: nat, j: nat)
    requires i < 2 && j < 6
    ensures 13 * i + 2 * j + 1 < |DeclaredArtifacts()|
    ensures DeclaredArtifacts()[13 * i + 2 * j] == SimdImplementation(PluginSimdSizes[j], PluginFloatingPointTypes[i])
    ensures DeclaredArtifacts()[13 * i + 2 * j + 1] == SimdDerivatives(PluginSimdSizes[j], PluginFloatingPointTypes[i])
  {
    var fp := PluginFloatingPointTypes[i];
    var widths := PluginSimdSizes;
    DeclaredLayout();
    CodeGeneratorProperties.WidthsPlanIndex(fp, widths, j);
    var declared, float, double := DeclaredArtifacts(), Block("Float"), Block("Double");
    TwoBlocksIndex(declared, float, double, [GenericImplementation], 2 * j);
    TwoBlocksIndex(declared, float, double, [GenericImplementation], 2 * j + 1);
    assert Block(fp)[2 * j] == WidthsPlan(fp, widths)[2 * j];
    assert Block(fp)[2 * j + 1] == WidthsPlan(fp, widths)[2 * j + 1];
  }

  /**
    The declared order: for each precision, each width's implementation then
    its derivatives, then that precision's scalar derivatives; the generic
    implementation last.
   */
  lemma OutputFilesOrder(output: string)
    ensures OutputFiles(output) == Paths(output, DeclaredArtifacts())
    ensures |DeclaredArtifacts()| == 27 && DeclaredArtifacts()[26] == GenericImplementation
    ensures DeclaredArtifacts()[12] == ScalarDerivatives("Float") && DeclaredArtifacts()[25] == ScalarDerivatives("Double")
    ensures forall i, j :: 0 <= i < 2 && 0 <= j < 6 ==>
      && DeclaredArtifacts()[13 * i + 2 * j] == SimdImplementation(PluginSimdSizes[j], PluginFloatingPointTypes[i])
      && DeclaredArtifacts()[13 * i + 2 * j + 1] == SimdDerivatives(PluginSimdSizes[j], PluginFloatingPointTypes[i])
  {
    OutputFilesArePaths(output);
    DeclaredEnds();
    DeclaredWidths();
  }

  /**
    The build command runs the generator with one argument after the
    executable's path, which passes its argument check; when no write fails,
    the generator writes exactly the declared paths.
   */
  lemma BuildCommandRunsGenerator(output: string, executable: string, failing: set<string>)
    ensures |[executable] + BuildArguments(output)| == 2
    ensures Run([executable] + BuildArguments(output), failing).1 != InvalidArguments
    ensures WritesSucceed(output, Plan(), failing) ==>
      var written := Run([executable] + BuildArguments(output), failing).0;
      forall p :: p in OutputFiles(output) <==> exists k :: 0 <= k < |written| && written[k].path == p
  {
    var arguments := [executable] + BuildArguments(output);
    BuildArgumentsPassCheck(output, executable, failing);
    if WritesSucceed(output, Plan(), failing) {
      assert arguments[1] == output;
      BuildWritesDeclared(arguments, failing);
    }
  }

  /** The build command's arguments pass the generator's argument check. */
  lemma BuildArgumentsPassCheck(output: string, executable: string, failing: set<string>)
    ensures |[executable] + BuildArguments(output)| == 2
    ensures Run([executable] + BuildArguments(output), failing).1 != InvalidArguments
  {
    CodeGeneratorProperties.RunArity([executable] + BuildArguments(output), failing);
  }

  /** A run with a work directory and no failing write writes exactly the paths declared for that directory. */
  lemma BuildWritesDeclared(arguments: seq<string>, failing: set<string>)
    requires |arguments| == 2 && WritesSucceed(arguments[1], Plan(), failing)
    ensures var written := Run(arguments, failing).0;
      forall p :: p in OutputFiles(arguments[1]) <==> exists k :: 0 <= k < |written| && written[k].path == p
  {
    var output := arguments[1];
    CodeGeneratorProperties.RunCompletes(arguments, failing);
    WrittenPaths(output, Files(output, Plan(), Contents), Plan(), Contents);
    OutputFilesMatchGenerator(output);
  }

  lemma WrittenPaths(output: string, written: seq<File>, plan: seq<Artifact>, render: Rendering -> string)
    requires written == Files(output, plan, render)
    ensures forall p :: p in Paths(output, plan) <==> exists k :: 0 <= k < |written| && written[k].path == p
  {
    FilesArePaths(output, plan, render);
    SamePaths(written, Paths(output, plan));
  }

  /** The k-th file written for a plan is at the k-th path of the plan. */
  lemma FilesArePaths(output: string, plan: seq<Artifact>, render: Rendering -> string)
    ensures |Files(output, plan, render)| == |Paths(output, plan)|
    ensures forall k :: 0 <= k < |plan| ==> Files(output, plan, render)[k].path == Paths(output, plan)[k]
  {
  }

  /** Files whose paths are, position by position, `paths` are at exactly the paths in `paths`. */
  lemma SamePaths(written: seq<File>, paths: seq<string>)
    requires |written| == |paths|
    requires forall k :: 0 <= k < |written| ==> written[k].path == paths[k]
    ensures forall p :: p in paths <==> exists k :: 0 <= k < |written| && written[k].path == p
  {
    forall p ensures p in paths <==> exists k :: 0 <= k < |written| && written[k].path == p {
      if p in paths {
        var k :| 0 <= k < |paths| && paths[k] == p;
        assert written[k].path == p;
      }
    }
  }
}
