/** The unary element-wise kernels (math/unary_elementwise_ops.cc): a program
    that reads the input four elements at a time as `x`, applies an expression
    to each vector `a`, and writes the result to `y`. It is the one program kind
    of this model, so the manager's Build, which generates a program's shader
    through the program kind's own generator, is modelled here for it. */
module UnaryElementwise {
  import opened Text
  import opened Outcomes
  import opened Gpu
  import opened Programs
  import opened Shaders
  import opened CacheKeys
  import opened ProgramManagement
  import Wgsl

  /** TensorShape::Size: the number of elements, the product of the dimensions. */
  function ShapeSize(shape: seq<nat>): nat
    decreases |shape|
  {
    if shape == [] then 1 else ShapeSize(shape[..|shape| - 1]) * shape[|shape| - 1]
  }

  /** The number of vec4 elements that hold `elementCount` elements. */
  function VecSize(elementCount: nat): nat {
    (elementCount + 3) / 4
  }

  /** The number of workgroups of WORKGROUP_SIZE invocations for `vecSize` vectors. */
  function DispatchSize(vecSize: nat): nat {
    (vecSize + WorkgroupSize - 1) / WorkgroupSize
  }

  /** The sizes ComputeInternal computes in SafeInt<uint32_t>: the vector count
      and the dispatch, or the overflow either conversion or the addition throws. */
  function UnarySizes(elementCount: nat): (r: Result<(UInt32, UInt32)>)
    ensures r.Err? ==> r.error == IntegerOverflow
    ensures r.Ok? ==> r.value.0 * 4 >= elementCount && r.value.1 * WorkgroupSize >= r.value.0
  {
    var vecSize := VecSize(elementCount);
    if vecSize >= UInt32Modulus then Err(IntegerOverflow)
    else if vecSize + WorkgroupSize >= UInt32Modulus then Err(IntegerOverflow)
    else Ok((vecSize, DispatchSize(vecSize)))
  }

  /** The sizes are the ceilings they are meant to be: enough vectors for every
      element and enough workgroups for every vector, with none to spare, and
      they are computed whenever the dispatch fits in 32 bits. */
  lemma UnarySizesAreCeilings(elementCount: nat)
    ensures UnarySizes(elementCount).Ok? ==>
              var (vecSize, dispatch) := UnarySizes(elementCount).value;
              vecSize * 4 >= elementCount && (vecSize == 0 || (vecSize - 1) * 4 < elementCount)
              && dispatch * WorkgroupSize >= vecSize && (dispatch == 0 || (dispatch - 1) * WorkgroupSize < vecSize)
    ensures UnarySizes(elementCount).Err? <==> VecSize(elementCount) + WorkgroupSize >= UInt32Modulus
  {
    var v := VecSize(elementCount);
    Wgsl.RoundUpFormula(elementCount, 4);
    Wgsl.RoundUpIsLeastMultiple(elementCount, 4);
    Wgsl.RoundUpFormula(v, 64);
    Wgsl.RoundUpIsLeastMultiple(v, 64);
  }

  /** The uniform ComputeInternal declares: the vector count, one u32. */
  const VecSizeUniform: UniformVariable := UniformVariable("vec_size", UniformDataType.Uint32, 1)

  /** The Abs kernel's expression. */
  const AbsExpression: string := "abs(a)"

  /** The input and output variables: `x` and `y`, vec4 of the tensors' element types, rank 1. */
  function XVariable(t: VariableType): ShaderVariable {
    ShaderVariable("x", t, 1, [], true)
  }

  function YVariable(t: VariableType): ShaderVariable {
    ShaderVariable("y", t, 1, [], true)
  }

  /** The guard on `uniforms.vec_size`, as GuardAgainstOutOfBoundsWorkgroupSizes writes it. */
  const VecSizeGuard: string := "  if (global_idx >= " + "uniforms.vec_size" + ") { return; }\n"

  /** The pieces of the main function body: the guard, the read of `a`, the write of the expression. */
  function BodyPieces(x: ShaderVariable, y: ShaderVariable, expression: string): seq<string> {
    [VecSizeGuard, "let a = ", GetByOffset(x, "global_idx"), ";\n", SetByOffset(y, "global_idx", expression)]
  }

  /** For every unpacked element type, the body reads `x[global_idx]` into `a`
      after the guard and stores the expression into `y[global_idx]`. */
  lemma BodyText(x: ShaderVariable, y: ShaderVariable, expression: string)
    requires !IsPacked(x.dataType) && !IsPacked(y.dataType)
    ensures Concat(BodyPieces(x, y, expression))
            == VecSizeGuard + "let a = " + Element(x, "global_idx") + ";\n" + (Element(y, "global_idx") + "=" + expression + ";")
  {
    var g, r, w := GetByOffset(x, "global_idx"), ";\n", SetByOffset(y, "global_idx", expression);
    assert g == Element(x, "global_idx");
    assert w == Element(y, "global_idx") + "=" + expression + ";";
    ConcatOne(VecSizeGuard);
    ConcatSnoc([VecSizeGuard], "let a = ");
    ConcatSnoc([VecSizeGuard, "let a = "], g);
    ConcatSnoc([VecSizeGuard, "let a = ", g], r);
    ConcatSnoc([VecSizeGuard, "let a = ", g, r], w);
    assert [VecSizeGuard] + ["let a = "] == [VecSizeGuard, "let a = "];
    assert [VecSizeGuard, "let a = "] + [g] == [VecSizeGuard, "let a = ", g];
    assert [VecSizeGuard, "let a = ", g] + [r] == [VecSizeGuard, "let a = ", g, r];
    assert [VecSizeGuard, "let a = ", g, r] + [w] == BodyPieces(x, y, expression);
  }

  /** The Abs kernel's body, for `x` and `y` of any unpacked type. */
  lemma AbsBodyText(x: ShaderVariable, y: ShaderVariable)
    requires x.name == "x" && y.name == "y" && !IsPacked(x.dataType) && !IsPacked(y.dataType)
    ensures Concat(BodyPieces(x, y, AbsExpression))
            == VecSizeGuard + "let a = " + "x[global_idx]" + ";\n" + "y[global_idx]=abs(a);"
  {
    BodyText(x, y, AbsExpression);
    assert Element(x, "global_idx") == "x[global_idx]";
    assert Element(y, "global_idx") + "=" + AbsExpression + ";" == "y[global_idx]=abs(a);";
  }

  /** The program has one input that depends on its type only and one u32
      uniform of length 1, so its key is the name, the 1-D flag, "1", and the
      input's element type followed by ";". */
  lemma UnaryCacheKey(name: string, input: Tensor, is1D: bool)
    ensures ProgramCacheKey(name, "", is1D, [VecSizeUniform], [ProgramInput(input, TypeDependency)])
            == name + ":" + FlagText(is1D) + ":" + "1" + ":" + Dec(input.elementType) + ";"
  {
    assert HasFlag(TypeDependency, TypeDependency) && !HasFlag(TypeDependency, RankDependency)
           && !HasFlag(TypeDependency, ShapeDependency);
    var i := ProgramInput(input, TypeDependency);
    assert InputEntry(i) == Dec(input.elementType) + ";";
    assert InputEntries([i])[0] == InputEntry(i);
    assert InputEntries([i]) == [InputEntry(i)];
    assert UniformEntry(VecSizeUniform) == "1";
    assert UniformEntries([VecSizeUniform]) == [UniformEntry(VecSizeUniform)];
  }

  /** The program's one uniform sits at offset 0 in a 16-byte buffer. */
  lemma UnaryUniformLayout()
    ensures Layout([VecSizeUniform]) == ([ProgramUniformInfo(UniformDataType.Uint32, 0, 1)], 4)
    ensures UniformTotalSize([VecSizeUniform]) == 16
  {
    assert [VecSizeUniform][..0] == [];
    assert Layout([VecSizeUniform][..0]) == ([], 0);
    assert ElementSize(UniformDataType.Uint32) == 4;
    assert BaseAlignment(UniformDataType.Uint32, 1) == 4;
    assert ConsumedSize(UniformDataType.Uint32, 1) == 4;
    assert Wgsl.RoundUp(0, 4) == 0;
    assert Wgsl.RoundUp(4, 16) == 16;
    var info := ProgramUniformInfo(UniformDataType.Uint32, 0, 1);
    assert Layout([VecSizeUniform]).0 == [] + [info];
    assert [] + [info] == [info];
  }

  /** With the corrected index, every vector below the count is computed by an
      invocation of the normalised dispatch with the default workgroup (64, 1,
      1); no two invocations share an index, by GlobalIdxIsInjective. */
  lemma DispatchCoversEveryVector(elementCount: nat, limit: UInt32, k: nat)
    requires UnarySizes(elementCount).Ok?
    requires Normalize(Dim3(UnarySizes(elementCount).value.1, 1, 1), limit).Ok?
    requires k < UnarySizes(elementCount).value.0
    ensures var grid := Normalize(Dim3(UnarySizes(elementCount).value.1, 1, 1), limit).value;
            var wg := Dim3(WorkgroupSize, 1, 1);
            Wgsl.Positive(ToId3(grid))
            && Wgsl.InDispatch(InvocationAt(wg, grid, k), ToId3(wg), ToId3(grid))
            && GlobalIdx(UsesLinearIndex(wg, grid), ToId3(wg), ToId3(grid), InvocationAt(wg, grid, k)) == k
  {
    var (vecSize, dispatch) := UnarySizes(elementCount).value;
    UnarySizesAreCeilings(elementCount);
    NormalizedGridHolds(dispatch, limit);
    var grid := Normalize(Dim3(dispatch, 1, 1), limit).value;
    var wg := Dim3(WorkgroupSize, 1, 1);
    assert Wgsl.Volume(ToId3(wg)) == WorkgroupSize;
    assert Wgsl.Volume(ToId3(grid)) * Wgsl.Volume(ToId3(wg)) >= dispatch * WorkgroupSize;
    GlobalIdxIsOnto(wg, grid, k);
  }

  /** The normalised grid for a positive one-dimensional request is positive
      and holds at least the requested number of workgroups. */
  lemma NormalizedGridHolds(dispatch: UInt32, limit: UInt32)
    requires dispatch >= 1 && Normalize(Dim3(dispatch, 1, 1), limit).Ok?
    ensures var grid := ToId3(Normalize(Dim3(dispatch, 1, 1), limit).value);
            Wgsl.Positive(grid) && Wgsl.Volume(grid) >= dispatch
  {
    var requested := Dim3(dispatch, 1, 1);
    NormalizeIsCorrect(requested, limit);
    var grid := Normalize(requested, limit).value;
    assert Volume(requested) == dispatch;
    assert Wgsl.Volume(ToId3(grid)) == Volume(grid);
    ZeroFactor(grid.x, grid.y, grid.z);
  }

  lemma ZeroFactor(a: nat, b: nat, c: nat)
    ensures (a == 0 || b == 0 || c == 0) ==> a * b * c == 0
  {
  }

  /** As written, Abs over 16777216 elements: 4194304 vectors, 65536 workgroups,
      normalised to a 256 x 256 grid that the generator still treats as
      one-dimensional, so `global_idx` stays below 16384 and the other vectors
      are never computed. */
  lemma AbsAsWrittenSkipsVectors(a: Wgsl.Invocation)
    requires Wgsl.InDispatch(a, ToId3(Dim3(WorkgroupSize, 1, 1)), ToId3(Dim3(256, 256, 1)))
    ensures UnarySizes(16777216) == Ok((4194304, 65536))
    ensures Normalize(Dim3(65536, 1, 1), 65535) == Ok(Dim3(256, 256, 1))
    ensures UsesLinearIndexAsWritten(Dim3(WorkgroupSize, 1, 1)) && !UsesLinearIndex(Dim3(WorkgroupSize, 1, 1), Dim3(256, 256, 1))
    ensures GlobalIdx(UsesLinearIndexAsWritten(Dim3(WorkgroupSize, 1, 1)), ToId3(Dim3(WorkgroupSize, 1, 1)), ToId3(Dim3(256, 256, 1)), a) < 16384
  {
    assert IsCeilRoot(256, 65536, 2);
    CeilRootUnique(CeilSqrt(65536), 256, 65536, 2);
    AsWrittenIndexBounded(Dim3(WorkgroupSize, 1, 1), Dim3(256, 256, 1), a);
  }

  lemma GuardIsVecSizeGuard(sh: ShaderHelper)
    ensures sh.GuardAgainstOutOfBoundsWorkgroupSizes("uniforms.vec_size") == VecSizeGuard
  {
  }

  /** UnaryElementwiseProgramInfo: a program with the expression applied to `a`
      and optional helper code. */
  class UnaryElementwiseProgramInfo {
    const program: Program
    const expression: string
    const additionalImpl: string

    constructor (kernelName: string, expression: string, additionalImpl: string)
      ensures fresh(program) && program.name == kernelName
      ensures program.cacheHint == "" && program.inputs == [] && program.outputs == []
      ensures program.dispatchX == 0 && program.dispatchY == 0 && program.dispatchZ == 0
      ensures program.uniformVariables == [] && program.overridableConstants == []
      ensures this.expression == expression && this.additionalImpl == additionalImpl
    {
      program := new Program(kernelName);
      this.expression := expression;
      this.additionalImpl := additionalImpl;
    }

    /** The program ComputeInternal sets up for `input`, once its sizes are computed. */
    predicate ConfiguredFor(input: Tensor, vecSize: UInt32, dispatch: UInt32)
      reads program
    {
      program.inputs == [ProgramInput(input, TypeDependency)]
      && program.outputs == [Tensor(input.elementType, input.shape)]
      && program.dispatchX == dispatch && program.dispatchY == 1 && program.dispatchZ == 1
      && program.uniformVariables == [VecSizeUniform]
      && program.cacheHint == ""
    }

    /** The shader variable type of a vec4 of a tensor element type. */
    static function InputType(p: Program, vec4Of: nat -> ShaderVariableDataType): ShaderVariableDataType
      requires |p.inputs| >= 1
      reads p
    {
      vec4Of(p.inputs[0].tensor.elementType)
    }

    static function OutputType(p: Program, vec4Of: nat -> ShaderVariableDataType): ShaderVariableDataType
      requires |p.outputs| >= 1
      reads p
    {
      vec4Of(p.outputs[0].elementType)
    }

    /** The two AddVariable calls of GenerateShaderCode: `x` in the input scope, then `y` in the output scope. */
    static method DeclareVariables(sh: ShaderHelper, inputType: ShaderVariableDataType, outputType: ShaderVariableDataType)
      returns (status: Status)
      requires sh.Valid()
      modifies sh`inputVars, sh`outputVars, sh`useF16
      ensures sh.Valid()
      ensures status.Success? <==>
                old(|sh.inputVars| + |sh.outputVars|) + 2 <= sh.limits.maxStorageBuffersPerShaderStage
                && inputType != ShaderVariableDataType.InvalidType && outputType != ShaderVariableDataType.InvalidType
      ensures status.Success? ==> sh.inputVars == old(sh.inputVars) + [XVariable(inputType)]
                                  && sh.outputVars == old(sh.outputVars) + [YVariable(outputType)]
    {
      var input := sh.AddVariable(Input, "x", inputType, RankExtent(1));
      if input.Err? {
        return Failure(input.error);
      }
      var output := sh.AddVariable(Output, "y", outputType, RankExtent(1));
      if output.Err? {
        return Failure(output.error);
      }
      assert input.value == XVariable(inputType) && output.value == YVariable(outputType);
      return Success;
    }

    /** GenerateShaderCode: declares `x` and then `y`, adds the helper code, and
        writes the body with the default workgroup size. `vec4Of` stands for
        ToShaderVariableDataType(element type, 4). */
    method GenerateShaderCode(sh: ShaderHelper, vec4Of: nat -> ShaderVariableDataType) returns (status: Status)
      requires sh.Valid() && |program.inputs| >= 1 && |program.outputs| >= 1
      modifies sh`inputVars, sh`outputVars, sh`useF16, sh`implementation, sh`body, sh`constants
      ensures sh.Valid()
      ensures status.Success? <==>
                old(|sh.inputVars| + |sh.outputVars|) + 2 <= sh.limits.maxStorageBuffersPerShaderStage
                && InputType(program, vec4Of) != ShaderVariableDataType.InvalidType
                && OutputType(program, vec4Of) != ShaderVariableDataType.InvalidType
                && MainFunctionBodyCheck(old(sh.body), Dim3(WorkgroupSize, 1, 1), sh.limits).Success?
      ensures status.Success? ==>
                var x := XVariable(InputType(program, vec4Of));
                var y := YVariable(OutputType(program, vec4Of));
                sh.inputVars == old(sh.inputVars) + [x] && sh.outputVars == old(sh.outputVars) + [y]
                && sh.implementation == old(sh.implementation) + [additionalImpl]
                && sh.body == MainFunctionText(true, Concat(BodyPieces(x, y, expression)))
    {
      var inputType := vec4Of(program.inputs[0].tensor.elementType);
      var outputType := vec4Of(program.outputs[0].elementType);
      status := DeclareVariables(sh, inputType, outputType);
      if status.Failure? {
        return;
      }
      status := AppendMain(sh, XVariable(inputType), YVariable(outputType));
    }

    /** The rest of GenerateShaderCode once `x` and `y` are declared: the
        helper code, then the main function around the guarded expression. */
    method AppendMain(sh: ShaderHelper, x: ShaderVariable, y: ShaderVariable) returns (status: Status)
      requires sh.Valid()
      modifies sh`implementation, sh`body, sh`constants
      ensures sh.Valid()
      ensures status == MainFunctionBodyCheck(old(sh.body), Dim3(WorkgroupSize, 1, 1), sh.limits)
      ensures sh.implementation == old(sh.implementation) + [additionalImpl]
      ensures status.Success? ==> sh.body == MainFunctionText(true, Concat(BodyPieces(x, y, expression)))
    {
      var _ := sh.AppendImplementation([additionalImpl]);
      ConcatOne(additionalImpl);
      GuardIsVecSizeGuard(sh);
      var pieces := [sh.GuardAgainstOutOfBoundsWorkgroupSizes("uniforms.vec_size"),
                     "let a = ", GetByOffset(x, "global_idx"), ";\n", SetByOffset(y, "global_idx", expression)];
      assert pieces == BodyPieces(x, y, expression);
      status := sh.MainFunctionBodyDefault(pieces);
    }
  }

  /** ComputeInternal (WEBGPU_ELEMENTWISE_IMPL): sizes the program for the
      input, which the output mirrors, or fails on a 32-bit overflow. */
  method ComputeInternal(kernelName: string, expression: string, additionalImpl: string, input: Tensor)
    returns (r: Result<UnaryElementwiseProgramInfo>)
    ensures r.Err? <==> UnarySizes(ShapeSize(input.shape)).Err?
    ensures r.Err? ==> r.error == IntegerOverflow
    ensures r.Ok? ==> fresh(r.value) && fresh(r.value.program)
    ensures r.Ok? ==> r.value.program.name == kernelName && r.value.expression == expression
                      && r.value.additionalImpl == additionalImpl
    ensures r.Ok? ==> r.value.ConfiguredFor(input, UnarySizes(ShapeSize(input.shape)).value.0,
                                            UnarySizes(ShapeSize(input.shape)).value.1)
  {
    var output := Tensor(input.elementType, input.shape);
    var size := ShapeSize(input.shape);
    if (size + 3) / 4 >= UInt32Modulus {
      return Err(IntegerOverflow);
    }
    var vecSize: UInt32 := (size + 3) / 4;
    if vecSize + WorkgroupSize >= UInt32Modulus {
      return Err(IntegerOverflow);
    }
    var info := new UnaryElementwiseProgramInfo(kernelName, expression, additionalImpl);
    var p := info.program.Inputs([ProgramInput(input, TypeDependency)]);
    p := p.Outputs([output]);
    p := p.WorkgroupDispatchSize1D((vecSize + WorkgroupSize - 1) / WorkgroupSize);
    p := p.UniformVariables([VecSizeUniform]);
    return Ok(info);
  }

  /** The shader a unary program generates, from an empty generator. The
      default workgroup is one-dimensional, so the main function takes
      `global_id.x` as its index whatever the dispatch: the text does not
      depend on the dispatch at all. */
  function UnaryShader(info: UnaryElementwiseProgramInfo, vec4Of: nat -> ShaderVariableDataType,
                       floatText: ConstantValue -> string): string
    requires |info.program.inputs| >= 1 && |info.program.outputs| >= 1
    requires UnaryElementwiseProgramInfo.InputType(info.program, vec4Of) != ShaderVariableDataType.InvalidType
    requires UnaryElementwiseProgramInfo.OutputType(info.program, vec4Of) != ShaderVariableDataType.InvalidType
    reads info.program
  {
    var xt := UnaryElementwiseProgramInfo.InputType(info.program, vec4Of);
    var yt := UnaryElementwiseProgramInfo.OutputType(info.program, vec4Of);
    var x, y := XVariable(xt), YVariable(yt);
    FinalSource(IsF16(xt) || IsF16(yt), [], [x], [y], info.program.uniformVariables, [info.additionalImpl],
                MainFunctionText(true, Concat(BodyPieces(x, y, info.expression))), floatText)
  }

  /** ProgramManager::Build for a unary program: a generator over the
      normalised dispatch, the program's shader code, and the final source
      handed to the device. `createPipeline` stands for the device's shader
      module and pipeline creation. */
  method Build(manager: ProgramManager, info: UnaryElementwiseProgramInfo, normalizedDispatch: Dim3,
               vec4Of: nat -> ShaderVariableDataType, floatText: ConstantValue -> string,
               createPipeline: string -> ComputePipeline)
    returns (r: Result<ComputePipeline>, code: string)
    requires |info.program.inputs| >= 1 && |info.program.outputs| >= 1
    ensures r.Ok? <==>
              normalizedDispatch.x > 0 && normalizedDispatch.y > 0 && normalizedDispatch.z > 0
              && 2 <= manager.limits.maxStorageBuffersPerShaderStage
              && UnaryElementwiseProgramInfo.InputType(info.program, vec4Of) != ShaderVariableDataType.InvalidType
              && UnaryElementwiseProgramInfo.OutputType(info.program, vec4Of) != ShaderVariableDataType.InvalidType
              && MainFunctionBodyCheck("", Dim3(WorkgroupSize, 1, 1), manager.limits).Success?
              && ((IsF16(UnaryElementwiseProgramInfo.InputType(info.program, vec4Of))
                   || IsF16(UnaryElementwiseProgramInfo.OutputType(info.program, vec4Of))) ==> manager.device.hasShaderF16)
    ensures r.Ok? ==> code == UnaryShader(info, vec4Of, floatText) && r.value == createPipeline(code)
  {
    code := "";
    var created := ShaderHelper.Create(info.program, ProgramMetadata([], [], []), manager.device, manager.limits,
                                       normalizedDispatch.x, normalizedDispatch.y, normalizedDispatch.z);
    if created.Err? {
      return Err(created.error), code;
    }
    var source := GenerateSource(created.value, info, vec4Of, floatText);
    if source.Err? {
      return Err(source.error), code;
    }
    code := source.value;
    r := Ok(createPipeline(code));
  }

  /** The part of Build between creating the generator and creating the
      pipeline: the program's shader code, then the final source. */
  method GenerateSource(sh: ShaderHelper, info: UnaryElementwiseProgramInfo, vec4Of: nat -> ShaderVariableDataType,
                        floatText: ConstantValue -> string)
    returns (r: Result<string>)
    requires sh.Valid() && sh.program == info.program && sh.metadata == ProgramMetadata([], [], [])
    requires sh.inputVars == [] && sh.outputVars == [] && sh.implementation == [] && sh.body == "" && !sh.useF16
    requires |info.program.inputs| >= 1 && |info.program.outputs| >= 1
    modifies sh`inputVars, sh`outputVars, sh`useF16, sh`implementation, sh`body, sh`constants
    ensures r.Ok? <==>
              2 <= sh.limits.maxStorageBuffersPerShaderStage
              && UnaryElementwiseProgramInfo.InputType(info.program, vec4Of) != ShaderVariableDataType.InvalidType
              && UnaryElementwiseProgramInfo.OutputType(info.program, vec4Of) != ShaderVariableDataType.InvalidType
              && MainFunctionBodyCheck("", Dim3(WorkgroupSize, 1, 1), sh.limits).Success?
              && ((IsF16(UnaryElementwiseProgramInfo.InputType(info.program, vec4Of))
                   || IsF16(UnaryElementwiseProgramInfo.OutputType(info.program, vec4Of))) ==> sh.device.hasShaderF16)
    ensures r.Ok? ==> r.value == UnaryShader(info, vec4Of, floatText)
  {
    var status := info.GenerateShaderCode(sh, vec4Of);
    if status.Failure? {
      return Err(status.error);
    }
    var x := XVariable(UnaryElementwiseProgramInfo.InputType(info.program, vec4Of));
    var y := YVariable(UnaryElementwiseProgramInfo.OutputType(info.program, vec4Of));
    HasF16Append([], x);
    HasF16Append([], y);
    assert [] + [x] == [x] && [] + [y] == [y];
    r := sh.GetFinalSourceCode(floatText);
  }
}
