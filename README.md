# swift-numerics-differentiable code generator, in Dafny

This project models the code generator of swift-numerics-differentiable, which runs at build time. The generator writes the Swift sources that give SIMD vector types `RealFunctions` implementations and `@derivative(of:)` registrations. It never evaluates numbers: it assembles text from fixed tables. The model has one module per part.

- `Records` (`records.dfy`): the `RealFunction` and `RealFunction.Argument` records and the defaults of their initialiser.
- `RealFunctionsGenerator` (`real_functions_generator.dfy`):
  - the three function catalogs (20 elementary, 10 real, 1 floating-point);
  - the per-function template with its three argument renderings and its choice between the element-wise loop and the `simd` call;
  - the extension text with its optional `import simd` header and optional where clauses.
- `RealFunctionsDerivativesGenerator` (`derivatives_generator.dfy`):
  - the derivative template as a table of 31 registrations, rendered line by line;
  - its single branch, the `abs` body.
- `CodeGenerator` (`code_generator.dfy`): the `main` of the generator executable.
  - The arity check.
  - The 27 files, each with its name and its rendering parameters.
  - The acceleration rule.
  - The nested loops of writes, as the methods `Generate`, `WriteArtifacts` and `WriteWidths`. Each is proved equal to the function `Writes`.
- `CodeGeneratorProperties` (`code_generator_properties.dfy`): what the generator promises about its files.
  - The count and order of the files.
  - Distinct names: every file name reads back to the file it names.
  - Fail-fast writes.
  - Which files import `simd` and which carry where clauses.
  - Which `abs` body each derivatives file gets.
- `CodeGeneratorPlugin` (`plugin.dfy`): the build plugin's declared `outputFiles` and its single-argument build command. They are proved to agree with what the generator writes.
- `PullbackSemantics` (`pullback_semantics.dfy`): what the emitted `abs`, `atan2` and `hypot` pullbacks compute, read over the reals.
- `Text` (`text.dfy`): `joined(separator:)` and its reader `Split`, multi-line literals as joined lines, and decimal rendering of integers.

How the environment is modelled:

- **Writes to disk.** The file system is a parameter `failing`: the set of paths whose write throws. A write appends a `File(path, text)` to the written sequence or stops the run with `WriteFailed(path)`.
- **Paths.** `output.appending(component: c)` is the string `output + "/" + c`.
- **Swift multi-line string literals** are lists of lines joined with `"\n"`, with the literal's indentation already removed.
- **The rendered texts.** `WriteArtifacts` and `WriteWidths` take them as a parameter `render`. `Generate` passes the real renderer, `Contents`.

## Model

| member | source | states |
|---|---|---|
| Records.DefaultArguments | Sources/CodeGeneratorExecutable/CodeGenerator.swift:71 | the initialiser's default parameter list, one `x` labelled `_`. DefaultArgumentsWellFormed states it is made of identifiers |
| Records.Func | Sources/CodeGeneratorExecutable/CodeGenerator.swift:71 | the initialiser: no `simd` name and the default parameter list unless given. The catalog lemmas (CatalogWellFormed, WithoutSimdName) state what the entries built with it hold |
| Text.SplitJoin | Sources/CodeGeneratorExecutable/RealFunctionsGenerator.swift:43-53 | reading a `joined(separator:)` text back at the separator gives the joined parts, in order, when no part contains the separator's first character |
| Text.NatToString | Sources/CodeGeneratorExecutable/CodeGenerator.swift:33 | the interpolated width is a non-empty string of decimal digits |
| Text.ParseNatToString | Sources/CodeGeneratorExecutable/CodeGenerator.swift:33 | the decimal spelling of a width reads back to the width |
| RealFunctionsGenerator.ElementaryFunctions | Sources/CodeGeneratorExecutable/RealFunctionsGenerator.swift:3-24 | the elementary catalog has 20 entries |
| RealFunctionsGenerator.RealFunctions | Sources/CodeGeneratorExecutable/RealFunctionsGenerator.swift:26-37 | the real catalog has 10 entries |
| RealFunctionsGenerator.FloatingPointFunctions | Sources/CodeGeneratorExecutable/RealFunctionsGenerator.swift:39-41 | the floating-point catalog has 1 entry |
| RealFunctionsGenerator.Catalog | Sources/CodeGeneratorExecutable/RealFunctionsGenerator.swift:3-41 | the three catalogs hold 31 entries together |
| RealFunctionsGenerator.DefaultArgumentsWellFormed | Sources/CodeGeneratorExecutable/CodeGenerator.swift:71 | the default parameter list is made of identifiers |
| RealFunctionsGenerator.CatalogWellFormed | Sources/CodeGeneratorExecutable/RealFunctionsGenerator.swift:3-41 | every catalog entry has identifier names, type-name fixed types and at least one parameter |
| RealFunctionsGenerator.ElementaryFunctionsWellFormed | Sources/CodeGeneratorExecutable/RealFunctionsGenerator.swift:3-24 | every elementary entry is well formed |
| RealFunctionsGenerator.RealFunctionsWellFormed | Sources/CodeGeneratorExecutable/RealFunctionsGenerator.swift:26-37 | every real entry is well formed |
| RealFunctionsGenerator.WithoutSimdName | Sources/CodeGeneratorExecutable/RealFunctionsGenerator.swift:22-23 | an entry has no `simd` name exactly when it is `sqrt` or `root` |
| RealFunctionsGenerator.InterfaceArgument | Sources/CodeGeneratorExecutable/RealFunctionsGenerator.swift:89-95 | one parameter of the declaration: label if any, name, and the fixed type or else the target type. InterfaceArgumentRoundTrip reads it back |
| RealFunctionsGenerator.ImplementationArgument | Sources/CodeGeneratorExecutable/RealFunctionsGenerator.swift:97-103 | one argument of the per-lane call, with `[i]` when the parameter has no fixed type. ImplementationArgumentRoundTrip reads it back |
| RealFunctionsGenerator.AcceleratedArgument | Sources/CodeGeneratorExecutable/RealFunctionsGenerator.swift:121 | one argument of the `simd` call, broadcast when the parameter has a fixed type. AcceleratedArgumentRoundTrip reads it back |
| RealFunctionsGenerator.InterfaceArgumentRoundTrip | Sources/CodeGeneratorExecutable/RealFunctionsGenerator.swift:89-95 | a declared parameter reads back as its label (if any), its name, and its fixed type or else the target type |
| RealFunctionsGenerator.ImplementationArgumentRoundTrip | Sources/CodeGeneratorExecutable/RealFunctionsGenerator.swift:97-103 | a call argument reads back as: no label for `_`; the label itself for any other label; the name for no label. The lane index `[i]` is present exactly when there is no fixed type |
| RealFunctionsGenerator.AcceleratedArgumentRoundTrip | Sources/CodeGeneratorExecutable/RealFunctionsGenerator.swift:121 | a `simd` call argument reads back as the name, broadcast exactly when it has a fixed type |
| RealFunctionsGenerator.InterfaceArgumentsInOrder | Sources/CodeGeneratorExecutable/RealFunctionsGenerator.swift:89-95 | the declaration's parameter list splits into one parameter per argument, in argument order |
| RealFunctionsGenerator.ImplementationArgumentsInOrder | Sources/CodeGeneratorExecutable/RealFunctionsGenerator.swift:97-103 | the per-lane call's argument list splits into one argument per parameter, in order |
| RealFunctionsGenerator.AcceleratedArgumentsInOrder | Sources/CodeGeneratorExecutable/RealFunctionsGenerator.swift:121 | the `simd` call's argument list splits into one argument per parameter, in order |
| RealFunctionsGenerator.ReadList | Sources/CodeGeneratorExecutable/RealFunctionsGenerator.swift:95 | a comma-joined list of comma-free parts splits back into those parts |
| RealFunctionsGenerator.RealFunctionTemplate | Sources/CodeGeneratorExecutable/RealFunctionsGenerator.swift:88-135 | the per-function template. TemplateText, TemplateForm, SqrtAndRootAlwaysElementWise, TemplateDeclares and TemplateLinesIndented state its text and form |
| RealFunctionsGenerator.TemplateText | Sources/CodeGeneratorExecutable/RealFunctionsGenerator.swift:105-134 | the template's text is its lines joined, with the interpolated regular implementation spliced in as lines |
| RealFunctionsGenerator.TemplateForm | Sources/CodeGeneratorExecutable/RealFunctionsGenerator.swift:116-134 | the template starts with the `#if canImport(simd)` guard exactly when acceleration is on and the function has a `simd` name. Otherwise it is the element-wise loop. The accelerated form holds the whole element-wise loop after `#else` |
| RealFunctionsGenerator.SqrtAndRootAlwaysElementWise | Sources/CodeGeneratorExecutable/RealFunctionsGenerator.swift:118-119 | `sqrt` and `root` always get the element-wise loop, whatever the acceleration flag |
| RealFunctionsGenerator.DefaultRecordRendering | Sources/CodeGeneratorExecutable/CodeGenerator.swift:71-75 | a record built with the defaults declares `_ x: T`, calls `x[i]` per lane, passes `x` to `simd`, and is always rendered element-wise |
| RealFunctionsGenerator.DeclarationReads | Sources/CodeGeneratorExecutable/RealFunctionsGenerator.swift:107 | the declaration line names the function |
| RealFunctionsGenerator.TemplateDeclares | Sources/CodeGeneratorExecutable/RealFunctionsGenerator.swift:105-134 | each template declares its function, and no other |
| RealFunctionsGenerator.TemplateLinesIndented | Sources/CodeGeneratorExecutable/RealFunctionsGenerator.swift:105-132 | every line of a template is non-empty and indented |
| RealFunctionsGenerator.CatalogCodeText | Sources/CodeGeneratorExecutable/RealFunctionsGenerator.swift:43-53 | the blank-line-joined catalog code is the templates' lines with one empty line between neighbours |
| RealFunctionsGenerator.CatalogCodeOnePerEntry | Sources/CodeGeneratorExecutable/RealFunctionsGenerator.swift:43-53 | splitting a catalog's code at blank lines gives one block per entry, in catalog order, each declaring that entry's function |
| RealFunctionsGenerator.RealFunctionsExtension | Sources/CodeGeneratorExecutable/RealFunctionsGenerator.swift:2-86 | the extension file's text. ExtensionEntries, ExtensionText, HeaderIffAccelerated, ExtensionOpenings and WhereClausesIffRequested state its layout |
| RealFunctionsGenerator.ExtensionEntries | Sources/CodeGeneratorExecutable/RealFunctionsGenerator.swift:61-85 | the extension text is the optional header, then three sections. Each section is its opening followed by its catalog's code |
| RealFunctionsGenerator.ExtensionText | Sources/CodeGeneratorExecutable/RealFunctionsGenerator.swift:61-85 | the extension text is a single list of lines joined |
| RealFunctionsGenerator.HeaderIffAccelerated | Sources/CodeGeneratorExecutable/RealFunctionsGenerator.swift:55-62 | the file starts with the `import simd` header exactly when acceleration is on |
| RealFunctionsGenerator.PreambleOpenings | Sources/CodeGeneratorExecutable/RealFunctionsGenerator.swift:65-82 | each section's preamble opens one extension: `ElementaryFunctions`, `RealFunctions` and `Real` respectively |
| RealFunctionsGenerator.ExtensionOpenings | Sources/CodeGeneratorExecutable/RealFunctionsGenerator.swift:61-85 | the file opens exactly three extensions, in the order ElementaryFunctions, RealFunctions, Real |
| RealFunctionsGenerator.ReadOpeningRoundTrip | Sources/CodeGeneratorExecutable/RealFunctionsGenerator.swift:66 | an extension opening reads back as its object type and, when requested, its `Scalar` constraint |
| RealFunctionsGenerator.WhereClausesIffRequested | Sources/CodeGeneratorExecutable/RealFunctionsGenerator.swift:66-82 | the file has exactly three openings. The k-th reads back as the object type with no constraint, or, when `whereClause` is set, with the k-th of `ElementaryFunctions`, `RealFunctions`, `Real` as its `Scalar` constraint |
| RealFunctionsDerivativesGenerator.DerivativesLines | Sources/CodeGeneratorExecutable/RealFunctionsDerivativesGenerator.swift:2-211 | the derivative template's lines: header, the three sections and their registrations. DerivativeAttributes and DerivativeOpenings state what they hold |
| RealFunctionsDerivativesGenerator.RealFunctionsDerivativesExtension | Sources/CodeGeneratorExecutable/RealFunctionsDerivativesGenerator.swift:2-211 | the derivative file's text, those lines joined. AttributesNameRegistrations states its registrations in order |
| RealFunctionsDerivativesGenerator.ElementaryRegistrations | Sources/CodeGeneratorExecutable/RealFunctionsDerivativesGenerator.swift:8-127 | the elementary section registers 20 derivatives |
| RealFunctionsDerivativesGenerator.RealRegistrations | Sources/CodeGeneratorExecutable/RealFunctionsDerivativesGenerator.swift:129-194 | the real section registers 10 derivatives |
| RealFunctionsDerivativesGenerator.Registrations | Sources/CodeGeneratorExecutable/RealFunctionsDerivativesGenerator.swift:8-209 | the template registers 31 derivatives |
| RealFunctionsDerivativesGenerator.AttributesAppend | Sources/CodeGeneratorExecutable/RealFunctionsDerivativesGenerator.swift:3-211 | the registrations of concatenated text are those of each part, in order |
| RealFunctionsDerivativesGenerator.SectionAttributes | Sources/CodeGeneratorExecutable/RealFunctionsDerivativesGenerator.swift:10-126 | a section's text holds one `@derivative(of:)` line per registration, in order |
| RealFunctionsDerivativesGenerator.DerivativeAttributes | Sources/CodeGeneratorExecutable/RealFunctionsDerivativesGenerator.swift:3-211 | the whole template's attribute lines are those of the 31 registrations, in order |
| RealFunctionsDerivativesGenerator.AttributeRoundTrip | Sources/CodeGeneratorExecutable/RealFunctionsDerivativesGenerator.swift:10 | an attribute line reads back as the function it differentiates and its overload selector |
| RealFunctionsDerivativesGenerator.DerivativeOpenings | Sources/CodeGeneratorExecutable/RealFunctionsDerivativesGenerator.swift:9-197 | the template opens three extensions, each of `type` |
| RealFunctionsDerivativesGenerator.EntryOrderIsPermutation | Sources/CodeGeneratorExecutable/RealFunctionsDerivativesGenerator.swift:10-199 | the registration order is a permutation of the catalog order |
| RealFunctionsDerivativesGenerator.CatalogSignaturesDistinct | Sources/CodeGeneratorExecutable/RealFunctionsGenerator.swift:3-41 | no two catalog entries share both name and parameter list. The two `pow` and the two `log` overloads differ in their parameters |
| RealFunctionsDerivativesGenerator.RegistrationsMatchEntries | Sources/CodeGeneratorExecutable/RealFunctionsDerivativesGenerator.swift:10-199 | each registration differentiates a catalog entry: same name, same parameter list, and, where the registration names an overload selector (`log(_:)`, `log(onePlus:)`), a selector that spells that entry's argument labels |
| RealFunctionsDerivativesGenerator.OneRegistrationPerEntry | Sources/CodeGeneratorExecutable/RealFunctionsDerivativesGenerator.swift:10-199 | every catalog entry has a registration, every registration belongs to the catalog, and no entry has two |
| RealFunctionsDerivativesGenerator.MatchedOneToOne | Sources/CodeGeneratorExecutable/RealFunctionsDerivativesGenerator.swift:10-199 | a matching of 31 registrations onto 31 distinct signatures is one-to-one and onto |
| RealFunctionsDerivativesGenerator.MatchedThrough | Sources/CodeGeneratorExecutable/RealFunctionsDerivativesGenerator.swift:10-199 | a table matched position by position to a catalog of distinct signatures, through two mutually inverse position maps, covers every entry once and only catalog entries |
| RealFunctionsDerivativesGenerator.AttributesNameRegistrations | Sources/CodeGeneratorExecutable/RealFunctionsDerivativesGenerator.swift:10-199 | the template text holds 31 attribute lines, and the j-th names the j-th registration's function and selector |
| RealFunctionsDerivativesGenerator.DifferentiableCountAppend | Sources/CodeGeneratorExecutable/RealFunctionsDerivativesGenerator.swift:105-125 | the differentiable parameters of a joined list add up |
| RealFunctionsDerivativesGenerator.ParameterCounts | Sources/CodeGeneratorExecutable/RealFunctionsDerivativesGenerator.swift:104-126 | one differentiable parameter for `x`, `onePlus x` and `(x, n: Int)`; two for `(x, y)` and `(y:, x:)` |
| RealFunctionsDerivativesGenerator.CotangentsPerDifferentiableParameter | Sources/CodeGeneratorExecutable/RealFunctionsDerivativesGenerator.swift:104-193 | each pullback returns one cotangent per parameter of the target type. `pow(_, Int)` and `root` get one, with none for the `Int`; two-argument `pow`, `atan2` and `hypot` get a pair |
| RealFunctionsDerivativesGenerator.PairPullbackType | Sources/CodeGeneratorExecutable/RealFunctionsDerivativesGenerator.swift:105-185 | a two-cotangent pullback is declared `(T) -> (T, T)` |
| RealFunctionsDerivativesGenerator.RealUnimplemented | Sources/CodeGeneratorExecutable/RealFunctionsDerivativesGenerator.swift:153-171 | in the real section, exactly `gamma` and `logGamma` trap |
| RealFunctionsDerivativesGenerator.UnimplementedExactlyGammas | Sources/CodeGeneratorExecutable/RealFunctionsDerivativesGenerator.swift:153-171 | of all 31 registrations, exactly `gamma` and `logGamma` have a trapping body |
| RealFunctionsDerivativesGenerator.FloatingPointTypeUses | Sources/CodeGeneratorExecutable/RealFunctionsDerivativesGenerator.swift:113-201 | changing `floatingPointType` changes only the registrations that interpolate it: `pow` and `root` over `(x, n: Int)`, `erf`, `erfc` and `abs`. `pow(_, _)` and the other 26 stay the same |
| RealFunctionsDerivativesGenerator.ElementaryFloatingPointUses | Sources/CodeGeneratorExecutable/RealFunctionsDerivativesGenerator.swift:113-126 | in the elementary section only the `(x, n: Int)` registrations of `pow` and `root` depend on `floatingPointType` |
| RealFunctionsDerivativesGenerator.RealFloatingPointUses | Sources/CodeGeneratorExecutable/RealFunctionsDerivativesGenerator.swift:129-194 | in the real section only `erf` and `erfc` depend on `floatingPointType` |
| RealFunctionsDerivativesGenerator.AbsBranch | Sources/CodeGeneratorExecutable/RealFunctionsDerivativesGenerator.swift:198-208 | the last registration is `abs`. When `type == floatingPointType` its body is the conditional and renders as the template's `x < 0 ? (value: -x, …) : (value: x, …)` line; otherwise it renders as the `(value: abs(x), pullback: { v in v.replacing(with: -v, where: x .< .zero) })` line. No other body is conditional, and the other 30 do not depend on `type`'s value beyond the text they interpolate |
| RealFunctionsDerivativesGenerator.LastIsAbs | Sources/CodeGeneratorExecutable/RealFunctionsDerivativesGenerator.swift:198-208 | the last registration is `abs`, conditional exactly when `type == floatingPointType`, and its body lines are the template's text for that branch |
| RealFunctionsDerivativesGenerator.AbsBodyText | Sources/CodeGeneratorExecutable/RealFunctionsDerivativesGenerator.swift:200-207 | the `abs` body is the conditional exactly when `type == floatingPointType`, and it renders, indented, as the template's line for that branch |
| RealFunctionsDerivativesGenerator.ScalarAbsText | Sources/CodeGeneratorExecutable/RealFunctionsDerivativesGenerator.swift:202 | the conditional body's statement is `x < 0 ? (value: -x, pullback: { v in .zero - v }) : (value: x, pullback: { v in v })` |
| RealFunctionsDerivativesGenerator.LaneAbsText | Sources/CodeGeneratorExecutable/RealFunctionsDerivativesGenerator.swift:205 | the lane-wise body's statement is `(value: abs(x), pullback: { v in v.replacing(with: -v, where: x .< .zero) })` |
| RealFunctionsDerivativesGenerator.AbsBody | Sources/CodeGeneratorExecutable/RealFunctionsDerivativesGenerator.swift:200-207 | the template's one branch on `type == floatingPointType`. AbsBodyText states the text of each branch |
| PullbackSemantics.LaneAbs | Sources/CodeGeneratorExecutable/RealFunctionsDerivativesGenerator.swift:205 | `abs` lane by lane keeps the lane count |
| PullbackSemantics.ScalarAbsIsDerivative | Sources/CodeGeneratorExecutable/RealFunctionsDerivativesGenerator.swift:202 | the scalar conditional's value is `sign(x) * x`, never negative, and its pullback is `sign(x) * v`. At 0 it gives value `x` and pullback `v` |
| PullbackSemantics.LanesAgreeWithScalar | Sources/CodeGeneratorExecutable/RealFunctionsDerivativesGenerator.swift:202-205 | the lane-wise `replacing(with:where:)` form computes in every lane what the scalar form computes |
| PullbackSemantics.LaneAbsAtMinusTwo | Tests/RealModuleDifferentiableTests/RealModuleDifferentiableTests.swift:221-226 | at `[-2, -2]` the value is `[2, 2]` and the pullback of ones is `[-1, -1]` |
| PullbackSemantics.Atan2Pullback | Sources/CodeGeneratorExecutable/RealFunctionsDerivativesGenerator.swift:173-181 | a pullback exists exactly when `x*x + y*y` is non-zero. The cotangents, `y` first, times that sum give `v*x` and `-v*y` |
| PullbackSemantics.Atan2PullbackTangent | Sources/CodeGeneratorExecutable/RealFunctionsDerivativesGenerator.swift:178-179 | the cotangent is orthogonal to `(y, x)` |
| PullbackSemantics.Atan2PullbackLinear | Sources/CodeGeneratorExecutable/RealFunctionsDerivativesGenerator.swift:177-179 | the pullback is linear in `v` |
| PullbackSemantics.Atan2AtOrigin | Sources/CodeGeneratorExecutable/RealFunctionsDerivativesGenerator.swift:178-179 | at the origin there is no pullback (division by zero) |
| PullbackSemantics.Atan2AtOneZero | Tests/RealModuleDifferentiableTests/RealModuleDifferentiableTests.swift:153-155 | at `y = 1, x = 0` the pullback of 1 is `(0, -1)` |
| PullbackSemantics.HypotPullback | Sources/CodeGeneratorExecutable/RealFunctionsDerivativesGenerator.swift:184-193 | a pullback exists exactly when the hypotenuse `c` is non-zero. The cotangents times `c` give `v*x` and `v*y` |
| PullbackSemantics.HypotPullbackRadial | Sources/CodeGeneratorExecutable/RealFunctionsDerivativesGenerator.swift:189-190 | `x*gx + y*gy == v*c`: the cotangent points along `(x, y)` |
| PullbackSemantics.HypotAtThreeFour | Tests/RealModuleDifferentiableTests/RealModuleDifferentiableTests.swift:187-190 | at `(3, 4)` the pullback of 1 is `(0.6, 0.8)` |
| CodeGenerator.Run | Sources/CodeGeneratorExecutable/CodeGenerator.swift:5-57 | `main` over its arguments and the failing paths. RunArity, RunFailFast and Generate state what it does |
| CodeGenerator.Writes | Sources/CodeGeneratorExecutable/CodeGenerator.swift:14-54 | the writes in plan order, stopping at the first failing path. WritesCons, WritesConcat and FirstFailure state this |
| CodeGenerator.Plan | Sources/CodeGeneratorExecutable/CodeGenerator.swift:14-55 | the 27 files in the order `main` writes them. PlanCount, PlanLayout and PlanForDistinct state count, order and distinctness |
| CodeGenerator.FileName | Sources/CodeGeneratorExecutable/CodeGenerator.swift:14-51 | the file name of each kind of file. FileNameRoundTrip and FileNameInjective state that names identify files |
| CodeGenerator.RenderingOf | Sources/CodeGeneratorExecutable/CodeGenerator.swift:15-53 | the arguments each file's text is rendered with. WhereClausesOnlyGeneric, ImportsSimdWhenAccelerated and DerivativesTarget state them |
| CodeGenerator.Accelerated | Sources/CodeGeneratorExecutable/CodeGenerator.swift:38-44 | the acceleration rule. AcceleratedImplementations states which seven files it accelerates |
| CodeGenerator.Files | Sources/CodeGeneratorExecutable/CodeGenerator.swift:14-54 | one written file per planned artifact, in plan order |
| CodeGenerator.FirstFailure | Sources/CodeGeneratorExecutable/CodeGenerator.swift:16-54 | the index of the first planned path whose write fails, or the plan's length when none does |
| CodeGenerator.WritesCons | Sources/CodeGeneratorExecutable/CodeGenerator.swift:16-54 | writing one artifact then the rest: a failing path stops the run with that path; otherwise the file comes first, then the rest |
| CodeGenerator.WritesNothing | Sources/CodeGeneratorExecutable/CodeGenerator.swift:21-56 | an empty plan writes nothing and completes |
| CodeGenerator.PrependTwice | Sources/CodeGeneratorExecutable/CodeGenerator.swift:21-56 | files written earlier stay in front when later files are added |
| CodeGenerator.WritesConcat | Sources/CodeGeneratorExecutable/CodeGenerator.swift:21-56 | running two plans one after the other runs the second only if the first completes, and then appends its files |
| CodeGenerator.NextPrecision | Sources/CodeGeneratorExecutable/CodeGenerator.swift:21-31 | each outer iteration writes the precision's scalar derivatives file, then its widths, then the later precisions |
| CodeGenerator.NextWidth | Sources/CodeGeneratorExecutable/CodeGenerator.swift:31-54 | each inner iteration writes the implementation file, then the derivatives file, then the later widths |
| CodeGenerator.Generate | Sources/CodeGeneratorExecutable/CodeGenerator.swift:5-57 | `main` produces exactly the files and outcome of `Run` |
| CodeGenerator.Write | Sources/CodeGeneratorExecutable/CodeGenerator.swift:16 | a failing write leaves the written files as they were and reports its path; a successful one appends the file |
| CodeGenerator.WriteArtifacts | Sources/CodeGeneratorExecutable/CodeGenerator.swift:13-56 | the generic file, then the outer loop, writes exactly what `Writes` gives for the whole plan |
| CodeGenerator.WriteWidths | Sources/CodeGeneratorExecutable/CodeGenerator.swift:31-55 | the inner loop writes exactly what `Writes` gives for one precision's widths |
| CodeGeneratorProperties.WidthsPlanLength | Sources/CodeGeneratorExecutable/CodeGenerator.swift:31-55 | two files per width |
| CodeGeneratorProperties.WidthsPlanIndex | Sources/CodeGeneratorExecutable/CodeGenerator.swift:31-55 | for the j-th width, the implementation file comes at 2j and the derivatives file at 2j+1 |
| CodeGeneratorProperties.PrecisionsPlanLength | Sources/CodeGeneratorExecutable/CodeGenerator.swift:21-56 | `1 + 2 * widths` files per precision |
| CodeGeneratorProperties.PlanCount | Sources/CodeGeneratorExecutable/CodeGenerator.swift:14-55 | 27 files are planned |
| CodeGeneratorProperties.PlanLayout | Sources/CodeGeneratorExecutable/CodeGenerator.swift:14-55 | the plan is the generic file, then 13 files for `Float`, then 13 for `Double` |
| CodeGeneratorProperties.PlannedWidth | Sources/CodeGeneratorExecutable/CodeGenerator.swift:31-54 | for precision i and width j, the implementation file is at `13i + 2j + 2` and the derivatives file follows it |
| CodeGeneratorProperties.PlanOrder | Sources/CodeGeneratorExecutable/CodeGenerator.swift:14-55 | the write order: generic first; `Float` scalar derivatives at 1; `Double` scalar derivatives at 14; the width pairs in width order |
| CodeGeneratorProperties.WidthsPlanMembers | Sources/CodeGeneratorExecutable/CodeGenerator.swift:31-55 | an artifact is in a precision's width files exactly when it is a SIMD file of that precision at a listed width |
| CodeGeneratorProperties.PrecisionsPlanMembers | Sources/CodeGeneratorExecutable/CodeGenerator.swift:21-56 | the loop files are exactly the non-generic planned artifacts |
| CodeGeneratorProperties.PlanMembers | Sources/CodeGeneratorExecutable/CodeGenerator.swift:14-55 | an artifact is written exactly when it is the generic file, a listed precision's scalar derivatives, or a SIMD file of a listed precision and width |
| CodeGeneratorProperties.NoDuplicatesConcat | Sources/CodeGeneratorExecutable/CodeGenerator.swift:21-56 | two duplicate-free lists with no common element concatenate to a duplicate-free list |
| CodeGeneratorProperties.WidthsPlanDistinct | Sources/CodeGeneratorExecutable/CodeGenerator.swift:31-55 | distinct widths give distinct artifacts |
| CodeGeneratorProperties.PrecisionsPlanDistinct | Sources/CodeGeneratorExecutable/CodeGenerator.swift:21-56 | distinct precisions and widths give distinct artifacts |
| CodeGeneratorProperties.PlanForDistinct | Sources/CodeGeneratorExecutable/CodeGenerator.swift:14-56 | the plan has no artifact twice |
| CodeGeneratorProperties.FileNameJoin | Sources/CodeGeneratorExecutable/CodeGenerator.swift:14-51 | each file name is its fields joined with `+` |
| CodeGeneratorProperties.FieldsRoundTrip | Sources/CodeGeneratorExecutable/CodeGenerator.swift:14-51 | a name's fields read back to the artifact |
| CodeGeneratorProperties.FieldsHaveNoPlus | Sources/CodeGeneratorExecutable/CodeGenerator.swift:24-51 | no field contains `+` when the precision does not |
| CodeGeneratorProperties.FileNameRoundTrip | Sources/CodeGeneratorExecutable/CodeGenerator.swift:14-51 | reading a file name back gives the artifact it names |
| CodeGeneratorProperties.FileNameInjective | Sources/CodeGeneratorExecutable/CodeGenerator.swift:14-51 | different artifacts get different file names |
| CodeGeneratorProperties.AppendingInjective | Sources/CodeGeneratorExecutable/CodeGenerator.swift:14-51 | within one directory, different components give different paths |
| CodeGeneratorProperties.PathsDistinct | Sources/CodeGeneratorExecutable/CodeGenerator.swift:14-51 | a duplicate-free plan of readable artifacts has pairwise distinct paths |
| CodeGeneratorProperties.PlanPathsDistinct | Sources/CodeGeneratorExecutable/CodeGenerator.swift:14-51 | the 27 paths are pairwise distinct |
| CodeGeneratorProperties.WritesStopAtFirstFailure | Sources/CodeGeneratorExecutable/CodeGenerator.swift:16-54 | a run writes exactly the files before the first failing path, and fails with that path if there is one |
| CodeGeneratorProperties.RunArity | Sources/CodeGeneratorExecutable/CodeGenerator.swift:7-9 | the run fails with `invalidArguments` exactly when the argument count is not 2, and then it writes nothing |
| CodeGeneratorProperties.WritesFailFast | Sources/CodeGeneratorExecutable/CodeGenerator.swift:16-54 | the written files are a prefix of the plan whose paths are not failing. The run completes exactly when no planned path fails; otherwise it fails with the next planned path, which is failing |
| CodeGeneratorProperties.RunFailFast | Sources/CodeGeneratorExecutable/CodeGenerator.swift:7-56 | the same, for `main` with one argument |
| CodeGeneratorProperties.WritesComplete | Sources/CodeGeneratorExecutable/CodeGenerator.swift:14-55 | when no write fails, every planned file is written and the run completes |
| CodeGeneratorProperties.RunCompletes | Sources/CodeGeneratorExecutable/CodeGenerator.swift:7-56 | when no write fails, `main` writes all 27 files, at distinct paths |
| CodeGeneratorProperties.AccelerationRule | Sources/CodeGeneratorExecutable/CodeGenerator.swift:39-44 | over the listed widths and precisions, acceleration is on exactly for widths up to 8, and for 16 with `Float` |
| CodeGeneratorProperties.AcceleratedImplementations | Sources/CodeGeneratorExecutable/CodeGenerator.swift:39-47 | exactly seven files are rendered accelerated: widths 2, 4, 8, 16 for `Float` and 2, 4, 8 for `Double` |
| CodeGeneratorProperties.ImportsSimdWhenAccelerated | Sources/CodeGeneratorExecutable/CodeGenerator.swift:15-47 | an implementation file starts with `import simd` exactly when it is a SIMD file at an accelerated width and precision. The generic file never does |
| CodeGeneratorProperties.SimdTypeIsTypeName | Sources/CodeGeneratorExecutable/CodeGenerator.swift:36 | `SIMDn<fp>` is a type name |
| CodeGeneratorProperties.WhereClausesOnlyGeneric | Sources/CodeGeneratorExecutable/CodeGenerator.swift:15-47 | all three openings of an implementation file extend `SIMD` in the generic file and `SIMDn<fp>` otherwise. They carry where clauses exactly in the generic file |
| CodeGeneratorProperties.SimdTypeNotPrecision | Sources/CodeGeneratorExecutable/CodeGenerator.swift:52 | `SIMDn<fp>` is never `fp` itself |
| CodeGeneratorProperties.DerivativesTarget | Sources/CodeGeneratorExecutable/CodeGenerator.swift:23-53 | a derivatives file is rendered for its precision, and its `type` is that precision exactly in the scalar file |
| CodeGeneratorProperties.AbsBranchPerFile | Sources/CodeGeneratorExecutable/CodeGenerator.swift:27-53 | derivatives files use `type == floatingPointType` exactly for the scalar files, so the scalar files get the conditional `abs` line and the SIMD files the `replacing(with:where:)` line, each as the template spells it |
| CodeGeneratorPlugin.OutputFiles | Plugins/CodeGeneratorPlugin.swift:12-23 | the declared output paths. OutputFilesArePaths, OutputFilesOrder and OutputFilesMatchGenerator state them |
| CodeGeneratorPlugin.BuildArguments | Plugins/CodeGeneratorPlugin.swift:29 | the build command's single argument, the work directory. BuildCommandRunsGenerator states that the generator accepts it |
| CodeGeneratorPlugin.SameLists | Plugins/CodeGeneratorPlugin.swift:9-10 | the plugin's precision and width lists are the generator's, in the same order |
| CodeGeneratorPlugin.PathsConcat | Plugins/CodeGeneratorPlugin.swift:12-23 | the paths of concatenated plans are the concatenated paths |
| CodeGeneratorPlugin.WidthFilesArePaths | Plugins/CodeGeneratorPlugin.swift:13-17 | the inner `flatMap` declares the paths of a precision's width files, in the generator's order |
| CodeGeneratorPlugin.PrecisionFilesArePaths | Plugins/CodeGeneratorPlugin.swift:12-20 | the outer `flatMap` declares each precision's width files, then its scalar derivatives file |
| CodeGeneratorPlugin.OutputFilesArePaths | Plugins/CodeGeneratorPlugin.swift:12-23 | `outputFiles` is the list of paths of the declared artifacts |
| CodeGeneratorPlugin.DeclaredPrecisionsLength | Plugins/CodeGeneratorPlugin.swift:12-20 | `1 + 2 * widths` declared files per precision |
| CodeGeneratorPlugin.OutputFilesCount | Plugins/CodeGeneratorPlugin.swift:12-23 | 27 files are declared |
| CodeGeneratorPlugin.DeclaredPrecisionsMembers | Plugins/CodeGeneratorPlugin.swift:12-20 | the per-precision declarations are exactly the non-generic planned artifacts |
| CodeGeneratorPlugin.DeclaredMembers | Plugins/CodeGeneratorPlugin.swift:12-23 | an artifact is declared exactly when the generator plans it |
| CodeGeneratorPlugin.DeclaredPrecisionsDistinct | Plugins/CodeGeneratorPlugin.swift:12-20 | no per-precision declaration repeats |
| CodeGeneratorPlugin.OutputFilesDistinct | Plugins/CodeGeneratorPlugin.swift:15-22 | the declared paths are pairwise distinct |
| CodeGeneratorPlugin.PathsSubset | Plugins/CodeGeneratorPlugin.swift:12-23 | the paths of a sub-plan are paths of the plan |
| CodeGeneratorPlugin.OutputFilesMatchGenerator | Plugins/CodeGeneratorPlugin.swift:12-23 | a path is declared exactly when the generator writes it |
| CodeGeneratorPlugin.DeclaredLayout | Plugins/CodeGeneratorPlugin.swift:12-23 | 13 files for `Float`, then 13 for `Double`, then the generic file |
| CodeGeneratorPlugin.DeclaredWidth | Plugins/CodeGeneratorPlugin.swift:13-17 | for precision i and width j, the implementation file is declared at `13i + 2j` and the derivatives file follows it |
| CodeGeneratorPlugin.OutputFilesOrder | Plugins/CodeGeneratorPlugin.swift:12-23 | the declared order: the width pairs, then that precision's scalar derivatives file (at 12 and 25); the generic file last, at 26 |
| CodeGeneratorPlugin.BuildCommandRunsGenerator | Plugins/CodeGeneratorPlugin.swift:25-33 | the build command passes one argument, so the generator's arity check accepts it. When no write fails, the declared paths are exactly the written ones |
| CodeGeneratorPlugin.WrittenPaths | Plugins/CodeGeneratorPlugin.swift:32 | the paths of the written files are the planned paths |

## Left out

- File-system effects: `URL(filePath:)`, the `directoryHint` argument, and `write(to:atomically:encoding:)`. A path is the output string, `/`, and the file name, with no normalisation. A write either appends the file or throws, as decided by the `failing` set. Atomicity and encodings are not modelled.
- `CodeGeneratorError.invalidData` is declared but never thrown, so it has no counterpart.
- The PackagePlugin API: `pluginWorkDirectoryURL`, `context.tool(named:)`, `displayName`, `environment` and `inputFiles`. The work directory is a string parameter. The URL and its `relativePath` are taken to be the same string.
- The numerical correctness of the emitted derivative formulas. They are reproduced as written, uncorrected, including:
  - the `cosh` and `sinh` pullbacks that ignore `v` (RealFunctionsDerivativesGenerator.swift lines 23 and 28);
  - the `acos` and `asin` pullbacks without a square root (lines 86 and 91).
  Only the `abs`, `atan2` and `hypot` bodies are given a meaning, over the reals.
- PullbackSemantics.HypotPullback: the square root is a parameter `c` with `c >= 0` and `c * c == x*x + y*y`, because Dafny's reals have no square root.
- PullbackSemantics.Atan2Pullback: a division by zero is `None`. IEEE NaN, infinities and signed zeros are not modelled.
- The `signGamma` comment in the real section is kept only as text lines.
- The complex-number module, `FloatingPoint+ConcreteImplementations.swift`, `Package.swift` and `Numerics.swift` are not part of this model. They hold no generator logic.
- The test suites are used only for the concrete pullback values cited above. Their floating-point tolerances are not modelled.
