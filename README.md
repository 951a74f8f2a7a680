# WebGPU program pipeline, modelled in Dafny

This project models the core of the ONNX Runtime WebGPU execution provider's program pipeline. A kernel describes a GPU
program. It gives a name, an optional cache hint, its input tensors and which of their facts the shader depends on,
its output tensors, a dispatch size and a list of uniform variables. The pipeline:

- computes a text **cache key** from that description;
- **normalises the dispatch size** to the device's per-dimension workgroup limit;
- **generates the WGSL shader source** through the program kind's own generator and a `ShaderHelper`;
- records the **uniform buffer layout** of the built program in a `ProgramArtifact`;
- keeps built programs in a **cache** keyed by that text.

The model covers one program kind, the unary element-wise kernels (`Abs`), from its sizes down to the shader text it
generates.

The project has these modules:

| file | module | source |
|---|---|---|
| `outcomes.dfy` | `Outcomes` | `Option`, `Result`, `Status` and the error conditions the source raises with `ORT_ENFORCE` or `SafeInt` |
| `gpu.dfy` | `Gpu` | 32-bit unsigned values, the device limits and features the core reads, dispatch triples |
| `text.dfy` | `Text` | decimal printing in the classic locale, separator joins built with a `first` flag, and the lemmas that split a join back into its parts |
| `wgsl.dfy` | `Wgsl` | reference definitions from the WGSL specification: alignment and size in the uniform address space (section 14.4), and the compute built-ins (section 13.3.1) from which `global_idx` is derived |
| `program.dfy` | `Programs` | `program.h` and `program.cc` |
| `program_cache_key.dfy` | `CacheKeys` | `program_cache_key.cc` |
| `shader_helper.dfy` | `Shaders` | `shader_helper.h` and `shader_helper.cc` |
| `program_manager.dfy` | `ProgramManagement` | `program_manager.h` and `program_manager.cc` |
| `unary_elementwise_ops.dfy` | `UnaryElementwise` | `math/unary_elementwise_ops.cc`, and `ProgramManager::Build` for that program kind |

The code's own form is kept. Objects whose fields the source updates become classes with `modifies` frames: the
`Program` and its chained setters, the `ShaderHelper`, the `ProgramArtifact` and the `ProgramManager` with its map.
The stream-writing loops become methods with loop invariants. Each is proved against a function that states the text
it writes. The remaining properties are lemmas about those functions:

- the key determines the facts it encodes;
- the layout agrees with WGSL's `OffsetOfMember`;
- normalisation gives the least fitting square or cube;
- the corrected `global_idx` numbers the invocations one-to-one.

The source files were not all written against the same revision of their interfaces. Where they disagree, the model
takes the reading under which the code that calls them works:

- `GetFinalSourceCode` reads a name and a default value from each overridable constant. Only the definition record has
  them, and the definitions reach the generator through the program metadata. So the generator takes its constant
  declarations from the metadata's definitions.
- The generator's constructor is declared without the metadata in `shader_helper.h:77` but takes it in
  `shader_helper.cc:95-101`, and `Build` passes none. The model passes the program kind's metadata. For the unary
  kernels this is empty, because they declare no constants.

Everywhere else the generator writes the text the code writes, including the two defects listed under
"## Findings". The corrected behaviour of each is a separate definition with its own lemmas.

## Model

| member | source | states |
|---|---|---|
| Programs.ElementSizeMatchesTypeName | onnxruntime/core/providers/webgpu/program.h:28-30 | the size and name tables agree: each uniform type's WGSL name is a letter followed by eight times its byte size; f16 is 2 bytes, the others 4 |
| Programs.MakeConstant | onnxruntime/core/providers/webgpu/program.h:71-75 | a constant keeps its name and value, and its type tag is the type of the value it was built from |
| Programs.NotOverriding | onnxruntime/core/providers/webgpu/program.h:90 | the default overridable value does not override |
| Programs.Overriding | onnxruntime/core/providers/webgpu/program.h:91-95 | a typed overridable value overrides, keeps the value, and is tagged with the value's type |
| Programs.DefinitionWithoutDefault | onnxruntime/core/providers/webgpu/program.h:110-111 | a (name, type) definition keeps both and has no default |
| Programs.DefinitionWithDefault | onnxruntime/core/providers/webgpu/program.h:112-121 | a (name, value) definition has that value as its default, and the value fixes its type |
| Programs.NamedUnions | onnxruntime/core/providers/webgpu/program.h:136-143 | None is 0; TypeAndRank is 3 and TypeAndShape is 5; each holds exactly its two flags |
| Programs.FlagsOfOrAnd | onnxruntime/core/providers/webgpu/program.h:145-150 | a single flag is in `a \| b` iff it is in a or in b, and in `a & b` iff it is in both |
| Programs.DependencyVariable.OrAssign | onnxruntime/core/providers/webgpu/program.h:151-153 | `\|=` updates the variable to the or of both and returns the new value |
| Programs.DependencyVariable.AndAssign | onnxruntime/core/providers/webgpu/program.h:154-156 | `&=` updates the variable to the and of both and returns the new value |
| Programs.GetMetadata | onnxruntime/core/providers/webgpu/program.h:400-445 | each metadata list is the declared static array, or empty when the program kind declares none |
| Programs.Program.constructor | onnxruntime/core/providers/webgpu/program.cc:11-16 | a new program has its name, an empty hint and empty lists, and dispatch size (0, 0, 0) |
| Programs.Program.CacheHint | onnxruntime/core/providers/webgpu/program.h:213-216 | the hint becomes the arguments joined with "\|"; nothing else changes |
| Programs.Program.Inputs | onnxruntime/core/providers/webgpu/program.cc:18-21 | the input list is replaced by the given one, and the program is returned for chaining |
| Programs.Program.Outputs | onnxruntime/core/providers/webgpu/program.cc:23-26 | the output list is replaced by the given one, and the program is returned |
| Programs.Program.WorkgroupDispatchSize | onnxruntime/core/providers/webgpu/program.cc:36-41 | the three dispatch sizes are set |
| Programs.Program.WorkgroupDispatchSize1D | onnxruntime/core/providers/webgpu/program.cc:28-30 | one size x sets the dispatch to (x, 1, 1) |
| Programs.Program.WorkgroupDispatchSize2D | onnxruntime/core/providers/webgpu/program.cc:32-34 | two sizes x, y set the dispatch to (x, y, 1) |
| Programs.Program.UniformVariables | onnxruntime/core/providers/webgpu/program.cc:43-46 | the given uniforms are appended after those already set |
| CacheKeys.StreamInputEntry | onnxruntime/core/providers/webgpu/program_cache_key.cc:46-54 | one input streams its element type if it depends on its type, then ";", then its rank, or else its shape, as its dependency says |
| CacheKeys.WriteUniformEntries | onnxruntime/core/providers/webgpu/program_cache_key.cc:27-37 | the first-flag loop writes the uniforms' lengths joined with "\|"; a zero length writes nothing |
| CacheKeys.WriteInputEntries | onnxruntime/core/providers/webgpu/program_cache_key.cc:39-55 | the first-flag loop writes the inputs' entries joined with "\|" |
| CacheKeys.CalculateProgramCacheKey | onnxruntime/core/providers/webgpu/program_cache_key.cc:9-58 | the key is name, "[hint]" when the hint is set, ":", the 1-D flag as 0 or 1, ":", the uniform entries, ":", the input entries |
| CacheKeys.ShapeToStringInjective | onnxruntime/core/providers/webgpu/program_cache_key.cc:53 | two shapes with the same text are the same shape |
| CacheKeys.InputEntryAvoids | onnxruntime/core/providers/webgpu/program_cache_key.cc:46-54 | an input entry contains no "\|" and no ":", so it cannot be confused with a separator |
| CacheKeys.UniformEntryAvoids | onnxruntime/core/providers/webgpu/program_cache_key.cc:34-36 | a uniform entry contains no "\|" and no ":" |
| CacheKeys.InputEntryEncodesFacts | onnxruntime/core/providers/webgpu/program_cache_key.cc:46-54 | two inputs have the same entry iff they agree on every fact their dependency selects (type, and rank or shape) |
| CacheKeys.UniformEntryInjective | onnxruntime/core/providers/webgpu/program_cache_key.cc:34-36 | two uniforms with the same entry have the same length |
| CacheKeys.KeyDependsOnlyOnFacts | onnxruntime/core/providers/webgpu/program_cache_key.cc:13-20 | programs that agree on name, hint, flag, uniform lengths and selected input facts get the same key |
| CacheKeys.KeyDeterminesFacts | onnxruntime/core/providers/webgpu/program_cache_key.cc:13-55 | equal keys mean equal name-and-hint prefix, equal 1-D flag, equal input facts, and equal uniform lengths when both programs have uniforms |
| CacheKeys.NoUniformsCollideWithEmptyUniform | onnxruntime/core/providers/webgpu/program_cache_key.cc:28-37 | a program without uniforms and one with a single zero-length uniform get the same key |
| Wgsl.RoundUpIsLeastMultiple | onnxruntime/core/providers/webgpu/program_manager.cc:23-30 | WGSL's roundUp(k, n) is a multiple of k, at least n, and less than n + k |
| Wgsl.RoundUpFormula | onnxruntime/core/providers/webgpu/program_manager.cc:30 | the integer formula (n + k - 1) / k * k computes roundUp(k, n) |
| Shaders.NewVariable | onnxruntime/core/providers/webgpu/shader_helper.cc:13-19 | both constructors fail exactly on InvalidType; otherwise they keep name and type, and use uniforms exactly when built from a rank |
| Shaders.StorageType | onnxruntime/core/providers/webgpu/shader_helper.cc:73-93 | int64, uint64 and vec4bool are stored in 32-bit unsigned words (`vec2<u32>` or `u32`) |
| Shaders.ValueType | onnxruntime/core/providers/webgpu/shader_helper.cc:21-71 | the type the shader computes with is the storage type exactly for the unpacked types |
| Shaders.GetByOffset | onnxruntime/core/providers/webgpu/shader_helper.cc:21-47 | the read is the plain element `name[offset]` exactly when the type is not packed; packed types are converted |
| Shaders.SetByOffset | onnxruntime/core/providers/webgpu/shader_helper.cc:49-71 | every write assigns to `name[offset]`; it assigns the value unchanged exactly when the type is not packed |
| Shaders.AccessorsConvertExactlyForPackedTypes | onnxruntime/core/providers/webgpu/shader_helper.cc:21-93 | GetByOffset and SetByOffset access `name[offset]` directly iff the storage type is the value type, which is iff the type is not int64, uint64 or vec4bool |
| Shaders.Int64StoreLoad | onnxruntime/core/providers/webgpu/shader_helper.cc:29-58 | StoreInt64 and LoadInt64 are hand-written readings of the int64 accessor text (`select(0u, 0xFFFFFFFFu, v < 0)` and `.x`): the two words are the 64-bit two's complement of the value, and the load gives the value back |
| Shaders.Uint64StoreLoad | onnxruntime/core/providers/webgpu/shader_helper.cc:32-61 | StoreUint64 and LoadUint64 are hand-written readings of the uint64 accessor text: the store zero-extends, and the load gives the value back |
| Shaders.Vec4BoolStoreLoad | onnxruntime/core/providers/webgpu/shader_helper.cc:35-64 | StoreVec4Bool and LoadVec4Bool are hand-written readings of the vec4bool accessor text (the `dot` with byte weights and the byte masks): loading what the store packed gives the four booleans back |
| Shaders.UniformTypeIsWgslScalar | onnxruntime/core/providers/webgpu/program.h:28-30 | each uniform type's name and size are those of the WGSL scalar it stands for |
| Shaders.Vec4ArrayLayout | onnxruntime/core/providers/webgpu/shader_helper.cc:195-196 | array<vec4<T>, n> of a 4-byte scalar is well formed, has a stride the uniform address space accepts, and is 16 n bytes |
| Shaders.Mat2x4ArrayLayout | onnxruntime/core/providers/webgpu/shader_helper.cc:191-193 | array<mat2x4<f16>, n> is well formed, has a stride the uniform address space accepts, and is 16 n bytes |
| Shaders.UniformFieldTypeIsValid | onnxruntime/core/providers/webgpu/shader_helper.cc:188-202 | every uniform member type is well formed, has strides the uniform address space accepts, and holds all of its elements |
| Shaders.UniformFieldTypeText | onnxruntime/core/providers/webgpu/shader_helper.cc:190-202 | the text streamed for a member's type is the WGSL spelling of the type the layout assumes |
| Shaders.StreamUniformField | onnxruntime/core/providers/webgpu/shader_helper.cc:177-202 | one member is streamed as its optional @align(16), its name and its type |
| Shaders.WriteUniformFields | onnxruntime/core/providers/webgpu/shader_helper.cc:174-203 | the first-flag loop writes the members joined with ",\n" |
| Shaders.WriteUniformBlock | onnxruntime/core/providers/webgpu/shader_helper.cc:172-208 | the Uniforms struct and its binding after the storage buffers, or nothing when there are no uniforms |
| Shaders.BoolDefaultAsWrittenIsNotBoolLiteral | onnxruntime/core/providers/webgpu/shader_helper.cc:148-149 | as written, a bool default is printed "0" for true and "1" for false, never as a WGSL bool literal |
| Shaders.BoolDefaultRoundTrip | onnxruntime/core/providers/webgpu/shader_helper.cc:148-149 | corrected, a bool default is printed as the WGSL literal that reads back as the same value |
| Shaders.StreamConstantDecl | onnxruntime/core/providers/webgpu/shader_helper.cc:134-153 | one `override name: type[ = default];` line, with a bool default streamed as written: "0" for true, "1" for false |
| Shaders.WriteConstantDecls | onnxruntime/core/providers/webgpu/shader_helper.cc:133-154 | the loop writes one declaration per definition, in order, with bool defaults as written |
| Shaders.StreamStorageDecl | onnxruntime/core/providers/webgpu/shader_helper.cc:163 | one storage buffer declaration at its binding, with its access mode and storage type |
| Shaders.WriteStorageDecls | onnxruntime/core/providers/webgpu/shader_helper.cc:161-167 | the variables are declared at consecutive bindings from the counter, which ends advanced by their number |
| Shaders.WriteImplementations | onnxruntime/core/providers/webgpu/shader_helper.cc:220-222 | each piece of helper code on its own line, in order |
| Shaders.WritePreamble | onnxruntime/core/providers/webgpu/shader_helper.cc:120-131 | "enable f16;" when needed, then the workgroup-size constants with WORKGROUP_SIZE = 64 |
| Shaders.WriteSections | onnxruntime/core/providers/webgpu/shader_helper.cc:133-227 | constants (bool defaults as written), inputs from binding 0, outputs after them, uniforms after those, the helper placeholder, helper code and body, in that order |
| Shaders.WriteSource | onnxruntime/core/providers/webgpu/shader_helper.cc:113-229 | the streamed text is the whole shader as FinalSource states it, as the source streams it |
| Shaders.FinalSourceEnablesF16 | onnxruntime/core/providers/webgpu/shader_helper.cc:120-123 | the shader starts with "enable f16;" iff the generator recorded an f16 variable |
| Shaders.HasF16Append | onnxruntime/core/providers/webgpu/shader_helper.h:159-161 | after one more variable, some variable is f16 iff one was before or the new one is |
| Shaders.MainFunctionBodyCheck | onnxruntime/core/providers/webgpu/shader_helper.h:97-112 | the checks pass iff no body is set yet, every workgroup size is positive and within its per-dimension limit, and the 32-bit product of the sizes is within the invocation limit; a body already set is reported first |
| Shaders.FlatIndexIsComposed | onnxruntime/core/providers/webgpu/shader_helper.h:137-138 | the multi-dimensional `global_idx` is the workgroup's row-major position times the workgroup volume plus local_invocation_index |
| Shaders.LinearIndexAgrees | onnxruntime/core/providers/webgpu/shader_helper.h:133-138 | with the corrected choice, the global_id.x form and the flat form give the same index |
| Shaders.GlobalIdxIsInjective | onnxruntime/core/providers/webgpu/shader_helper.h:114-138 | corrected: two invocations of a dispatch with the same `global_idx` are the same invocation |
| Shaders.GlobalIdxInRange | onnxruntime/core/providers/webgpu/shader_helper.h:114-138 | corrected: every `global_idx` is below the number of invocations |
| Shaders.GlobalIdxIsOnto | onnxruntime/core/providers/webgpu/shader_helper.h:114-138 | corrected: every number below the invocation count is the `global_idx` of an invocation of the dispatch |
| Shaders.AsWrittenIndexCollides | onnxruntime/core/providers/webgpu/shader_helper.h:114 | as written, workgroup (64, 1, 1) over grid (256, 256, 1) gives two distinct invocations the same `global_idx` |
| Shaders.AsWrittenIndexBounded | onnxruntime/core/providers/webgpu/shader_helper.h:114 | as written, with a one-dimensional workgroup every index is below dispatch.x times the workgroup width, whatever the other dispatch dimensions |
| Shaders.ShaderHelper.constructor | onnxruntime/core/providers/webgpu/shader_helper.cc:95-109 | a generator keeps program, metadata, device, limits and dispatch, has no variables, code or body, and does not use f16 |
| Shaders.ShaderHelper.Create | onnxruntime/core/providers/webgpu/shader_helper.cc:95-111 | construction fails with "Invalid dispatch group size" exactly when a dispatch dimension is 0 |
| Shaders.ShaderHelper.AddVariable | onnxruntime/core/providers/webgpu/shader_helper.h:154-164 | fails on a Local scope or a full stage with "too many storage buffers", then on InvalidType; otherwise appends the variable to its scope and turns on f16 for an f16 type; the generator stays valid |
| Shaders.ShaderHelper.AddCheckedVariable | onnxruntime/core/providers/webgpu/shader_helper.h:159-163 | after the scope check, f16 is recorded before the variable is built; only InvalidType fails, and a failure changes nothing |
| Shaders.ShaderHelper.PushVariable | onnxruntime/core/providers/webgpu/shader_helper.h:163 | the new variable ends its scope's list, and the other scope is unchanged |
| Shaders.ShaderHelper.AppendImplementation | onnxruntime/core/providers/webgpu/shader_helper.h:86-90 | the pieces, concatenated, become one more piece of helper code |
| Shaders.ShaderHelper.MainFunctionBody | onnxruntime/core/providers/webgpu/shader_helper.h:96-146 | the checks fail in source order: body already set, a zero size, a size over its limit, then the invocation product modulo 2^32 over the limit. Otherwise the body is the main function around the pieces, taking `global_id.x` as the index exactly when the workgroup's y and z sizes are 1, whatever the dispatch, as the source decides; and the three sizes are recorded as constants |
| Shaders.ShaderHelper.MainFunctionBodyDefault | onnxruntime/core/providers/webgpu/shader_helper.h:92-93 | the same checks with workgroup size (WORKGROUP_SIZE, 1, 1); on success the body always takes `global_id.x` as its index |
| Shaders.ShaderHelper.GetFinalSourceCode | onnxruntime/core/providers/webgpu/shader_helper.cc:113-230 | fails iff f16 is used and the device lacks the ShaderF16 feature; otherwise returns the whole shader as the source assembles it, from the recorded body and with bool defaults as written |
| ProgramManagement.LayoutFieldMatchesWgsl | onnxruntime/core/providers/webgpu/program_manager.cc:20-39 | the base alignment and the bytes consumed are WGSL's AlignOf and SizeOf of the declared member type; the alignment divides 16; the bytes hold every element |
| ProgramManagement.LayoutFollowsWgsl | onnxruntime/core/providers/webgpu/program_manager.cc:18-40 | every recorded offset is WGSL's OffsetOfMember of the Uniforms struct, and the final cursor is the end of the last member |
| ProgramManagement.LayoutKeepsFields | onnxruntime/core/providers/webgpu/program_manager.cc:24-31 | each info keeps its uniform's type and length, at a multiple of its alignment |
| ProgramManagement.LayoutIsOrdered | onnxruntime/core/providers/webgpu/program_manager.cc:30-39 | each uniform ends at or before the offset of every later one, and at or before the cursor |
| ProgramManagement.UniformTotalSizeIsPadded | onnxruntime/core/providers/webgpu/program_manager.cc:42-45 | the buffer size is a multiple of 16 and less than 16 bytes past the last uniform |
| ProgramManagement.LayoutIsSound | onnxruntime/core/providers/webgpu/program_manager.cc:16-46 | the layout is aligned, has no overlap, and fits in a 16-byte-padded buffer |
| ProgramManagement.LayoutExample | onnxruntime/core/providers/webgpu/program_manager.cc:33-39 | five f32 elements sit at offset 0 in a 32-byte buffer |
| ProgramManagement.PlaceUniform | onnxruntime/core/providers/webgpu/program_manager.cc:20-39 | the loop body's alignment, struct size and division formulas place the uniform where the layout says |
| ProgramManagement.Place | onnxruntime/core/providers/webgpu/program_manager.cc:20-39 | a uniform keeps its type and length and goes at the least offset at or after the cursor that is a multiple of its alignment; the cursor moves past the bytes it consumes |
| ProgramManagement.Layout | onnxruntime/core/providers/webgpu/program_manager.cc:16-40 | one info per uniform, in order (LayoutFollowsWgsl and LayoutIsSound state where they go) |
| ProgramManagement.ProgramArtifact.constructor | onnxruntime/core/providers/webgpu/program_manager.cc:16-46 | the artifact keeps the program's name and pipeline; its infos are the layout, and its total size is the layout's padded size |
| ProgramManagement.CeilRoot | onnxruntime/core/providers/webgpu/program_manager.cc:57-59 | the result is the least number whose k-th power reaches p |
| ProgramManagement.NoGridFits | onnxruntime/core/providers/webgpu/program_manager.cc:58-60 | when the cube root exceeds the limit, no grid within the limit holds the dispatch |
| ProgramManagement.Normalize | onnxruntime/core/providers/webgpu/program_manager.cc:48-65 | a fitting dispatch is returned unchanged and only a non-fitting one can fail; a normalised dispatch is a square (s, s, 1) or a cube (c, c, c), within the limit when the limit is at least 1 |
| ProgramManagement.NormalizeIsCorrect | onnxruntime/core/providers/webgpu/program_manager.cc:48-65 | a fitting dispatch is kept. Otherwise the result is the ceiling square (s, s, 1) or, when that is not the ceiling square root, the ceiling cube (c, c, c). Any result is at least as large, and within the limit when the limit is at least 1. It overflows iff the volume's ceiling square root does not fit in 32 bits. It fails on the limit only when every grid within the limit is smaller than the volume |
| ProgramManagement.NormalizeSquareExample | onnxruntime/core/providers/webgpu/program_manager.cc:56-63 | 100000 workgroups become a 317 × 317 grid |
| ProgramManagement.NormalizeCubeExample | onnxruntime/core/providers/webgpu/program_manager.cc:56-61 | 100000 × 100000 workgroups become a 2155 × 2155 × 2155 grid |
| ProgramManagement.StoredIsFirstWriterWins | onnxruntime/core/providers/webgpu/program_manager.cc:114-116 | inserting keeps an existing entry, adds a missing one, leaves other keys alone, and is idempotent |
| ProgramManagement.ProgramManager.constructor | onnxruntime/core/providers/webgpu/program_manager.h:50 | a new manager has an empty cache and keeps device and limits |
| ProgramManagement.ProgramManager.NormalizeDispatchGroupSize | onnxruntime/core/providers/webgpu/program_manager.cc:48-65 | a fitting dispatch is returned unchanged; a normalised one is within the limit and at least as large |
| ProgramManagement.ProgramManager.Get | onnxruntime/core/providers/webgpu/program_manager.cc:105-112 | the artifact under the key if there is one, nothing otherwise |
| ProgramManagement.ProgramManager.Set | onnxruntime/core/providers/webgpu/program_manager.cc:114-116 | emplace: the cache gains the key only if it was missing, and the returned artifact is the one now stored under the key |
| UnaryElementwise.UnarySizesAreCeilings | onnxruntime/core/providers/webgpu/math/unary_elementwise_ops.cc:37-42 | the vector count is the least that covers every element, and the dispatch the least that covers every vector; an overflow happens iff the dispatch sum exceeds 32 bits |
| UnaryElementwise.UnarySizes | onnxruntime/core/providers/webgpu/math/unary_elementwise_ops.cc:37-42 | the only failure is an integer overflow; otherwise there are enough vectors for every element and enough workgroups for every vector |
| UnaryElementwise.BodyText | onnxruntime/core/providers/webgpu/math/unary_elementwise_ops.cc:21-23 | for unpacked types the body is the guard, `let a = x[global_idx];`, then `y[global_idx]=<expression>;` |
| UnaryElementwise.AbsBodyText | onnxruntime/core/providers/webgpu/math/unary_elementwise_ops.cc:60 | Abs writes `y[global_idx]=abs(a);` |
| UnaryElementwise.GuardIsVecSizeGuard | onnxruntime/core/providers/webgpu/shader_helper.h:148-150 | the guard for `uniforms.vec_size` is exactly the text `  if (global_idx >= uniforms.vec_size) { return; }` and a newline, the text the body pieces start with |
| UnaryElementwise.UnaryCacheKey | onnxruntime/core/providers/webgpu/math/unary_elementwise_ops.cc:39-43 | a unary program's key is its name, the 1-D flag, "1" for the vec_size uniform, and the input's element type followed by ";" |
| UnaryElementwise.UnaryUniformLayout | onnxruntime/core/providers/webgpu/math/unary_elementwise_ops.cc:43 | vec_size sits at offset 0 in a 16-byte uniform buffer |
| UnaryElementwise.DispatchCoversEveryVector | onnxruntime/core/providers/webgpu/math/unary_elementwise_ops.cc:37-42 | with the corrected index, every vector below vec_size is computed by an invocation of the normalised dispatch |
| UnaryElementwise.AbsAsWrittenSkipsVectors | onnxruntime/core/providers/webgpu/math/unary_elementwise_ops.cc:37-42 | as written, Abs over 16777216 elements dispatches 65536 workgroups, normalised to 256 × 256, and `global_idx` stays below 16384 of the 4194304 vectors |
| UnaryElementwise.UnaryElementwiseProgramInfo.constructor | onnxruntime/core/providers/webgpu/math/unary_elementwise_ops.cc:38 | a new program with the kernel's name, expression and helper code |
| UnaryElementwise.UnaryElementwiseProgramInfo.DeclareVariables | onnxruntime/core/providers/webgpu/math/unary_elementwise_ops.cc:12-19 | `x` is added as an input and `y` as an output; this fails iff the stage lacks two storage buffers or a type is invalid |
| UnaryElementwise.UnaryElementwiseProgramInfo.GenerateShaderCode | onnxruntime/core/providers/webgpu/math/unary_elementwise_ops.cc:11-26 | succeeds iff both variables can be added and the main function checks pass; then there is one more input and output, the helper code, and a body that takes `global_id.x` as its index around the guarded expression |
| UnaryElementwise.UnaryElementwiseProgramInfo.AppendMain | onnxruntime/core/providers/webgpu/math/unary_elementwise_ops.cc:20-23 | the helper code is appended whatever happens next; the main function checks decide the status, and on success the body is the main function around the guard, the read of `a` and the write of the expression |
| UnaryElementwise.ComputeInternal | onnxruntime/core/providers/webgpu/math/unary_elementwise_ops.cc:34-45 | fails iff the 32-bit sizes overflow; otherwise the program has the input (type dependency), the same-shaped output, dispatch (ceil(vec_size / 64), 1, 1) and the vec_size uniform |
| UnaryElementwise.Build | onnxruntime/core/providers/webgpu/program_manager.cc:67-103 | succeeds iff the dispatch is positive, two storage buffers are allowed, both types are valid, the workgroup checks pass, and the device supports f16 where needed. The pipeline is then created from exactly the unary shader, whose text is the same for every dispatch, because the default workgroup is one-dimensional |
| UnaryElementwise.GenerateSource | onnxruntime/core/providers/webgpu/program_manager.cc:68-77 | a fresh generator, filled by the program kind and assembled, gives the unary shader; the success condition is the same as Build's, without the dispatch check |

## Left out

- I/O: device calls, logging and the build log are not modelled. `Build` takes the device's shader-module and pipeline creation as the function parameter `createPipeline`.
- `Build` dispatches to the program kind's virtual `GenerateShaderCode`. It is modelled only for the unary element-wise program kind, the one kind in this model.
- `ComputeContext::RunProgram`, the kernel registration macros, the WebNN builder and the provider factory are not part of this model.
- The generator's concurrency and object lifetimes (references to device, limits and program) are not modelled. They are plain fields here.
- `OverridableConstants(...)` is declared in program.h without a definition. It is not modelled.
- Programs.Program.CacheHint returns the program for chaining. The source's template falls off its end without a `return` (undefined behaviour), and the model does not capture that.
- The SFINAE type checks and `static_assert`s behind `GetMetadata` are compile-time only. A program kind's declared arrays are given as `DeclaredMembers`.
- A uniform's value bytes and its value constructors are not modelled. Only name, type and element count reach the key, the layout and the shader.
- Floating-point text is not modelled. `GetFinalSourceCode` takes the stream's rendering of an f32 or f16 default as the parameter `floatText`. Constant values are kept as bit patterns.
- ProgramManagement.NormalizeIsCorrect: the double-precision product, `sqrt` and `cbrt` are replaced by exact integer ceiling roots. Rounding of the floating-point roots near perfect powers is not captured.
- ProgramManagement.ProgramManager.NormalizeDispatchGroupSize: the result is stated to be within the limit only when the limit is at least 1. With a limit of 0 the source returns a non-fitting grid, and the model does too.
- The layout requires every uniform to have at least one element. A zero-length uniform makes the source divide by a zero alignment.
- `program_.GetConstants()` is called for no effect in `GetFinalSourceCode`. The generator's constants map of doubles holds the three workgroup sizes as integers.
- `global_idx` arithmetic in the shader is on u32 and wraps. The index lemmas use unbounded integers, so they cover dispatches of fewer than 2^32 invocations as exact values.
- `ToShaderVariableDataType` is not part of this model. It is the parameter `vec4Of` from an element type to the vec4 shader type.
- `TensorShape::ToString` is not part of this model. It is modelled as "{d0,d1,...}", the digits of the dimensions separated by commas between braces.
- `TensorShape::Size` is modelled on unbounded integers. The 64-bit overflow of `Size() + 3` is not captured.

## Findings

| source | as written | input that shows it | evidently intended | confidence | as-written member | corrected member |
|---|---|---|---|---|---|---|
| onnxruntime/core/providers/webgpu/shader_helper.h:114 | the main function uses `global_id.x` as `global_idx` whenever the workgroup is one-dimensional, even when the dispatch is not | Abs over 16777216 elements with 65535 workgroups per dimension: 65536 workgroups are normalised to (256, 256, 1); workgroups (0, 0, 0) and (0, 1, 0) both compute index 0, and vectors from 16384 on are never computed | use `global_id.x` only when both the workgroup and the dispatch are one-dimensional, so that `global_idx` numbers every invocation once | high (not executed) | Shaders.AsWrittenIndexCollides | Shaders.GlobalIdxIsOnto |
| onnxruntime/core/providers/webgpu/shader_helper.cc:149 | `ss << (value == 0) ? "true" : "false"` streams the comparison as 0 or 1 and discards the chosen literal | an overridable bool constant with default true is declared `= 0`, which WGSL rejects for a bool | the WGSL literal `true` or `false` of the default value; the ternary itself maps 0 to "true", so even the parenthesised form would print the inverted literal | high (not executed) | Shaders.BoolDefaultAsWrittenIsNotBoolLiteral | Shaders.BoolDefaultRoundTrip |
