/** The program descriptor (program.h, program.cc): uniform and constant
    records, the input dependency flags, the metadata lists a program kind may
    declare, and the `Program` object that chained setters fill in. */
module Programs {
  import opened Text
  import opened Outcomes
  import opened Gpu

  // ---------------------------------------------------------------------
  // Uniform variables

  /** ProgramUniformVariableDataType, in declaration order. */
  datatype UniformDataType = Float32 | Float16 | Uint32 | Int32

  /** Position of a uniform data type in its enum; the size and name tables are indexed by it. */
  function UniformOrdinal(t: UniformDataType): (i: nat)
    ensures i < 4
  {
    match t
    case Float32 => 0
    case Float16 => 1
    case Uint32 => 2
    case Int32 => 3
  }

  /** ProgramUniformVariableDataTypeSize: sizeof(float), sizeof(uint16_t), sizeof(uint32_t), sizeof(int32_t). */
  const UniformDataTypeSizes: seq<nat> := [4, 2, 4, 4]

  /** ProgramUniformVariableDataTypeName. */
  const UniformDataTypeNames: seq<string> := ["f32", "f16", "u32", "i32"]

  function ElementSize(t: UniformDataType): nat {
    UniformDataTypeSizes[UniformOrdinal(t)]
  }

  function UniformTypeName(t: UniformDataType): string {
    UniformDataTypeNames[UniformOrdinal(t)]
  }

  /** The two tables agree: each WGSL scalar name is a letter followed by the
      bit width of the element, which is eight times its byte size. */
  lemma ElementSizeMatchesTypeName(t: UniformDataType)
    ensures UniformTypeName(t) == [UniformTypeName(t)[0]] + Dec(8 * ElementSize(t))
    ensures ElementSize(t) == (if t == UniformDataType.Float16 then 2 else 4)
  {
    assert Dec(16) == Dec(1) + [Digit(6)];
    assert Dec(32) == Dec(3) + [Digit(2)];
  }

  /** A uniform variable as the program carries it: a name, an element type and
      an element count (`length`; `num_elements` in other revisions). Its raw
      bytes are not part of this model. */
  datatype UniformVariable = UniformVariable(name: string, dataType: UniformDataType, length: nat)

  /** ProgramUniformVariableDefinition. */
  datatype UniformVariableDefinition = UniformVariableDefinition(name: string, dataType: UniformDataType)

  // ---------------------------------------------------------------------
  // Constants and overridable constants

  /** ProgramConstantDataType, in declaration order. */
  datatype ConstantDataType = Float32 | Float16 | Uint32 | Int32 | Bool

  const ConstantDataTypeNames: seq<string> := ["f32", "f16", "u32", "i32", "bool"]

  function ConstantOrdinal(t: ConstantDataType): (i: nat)
    ensures i < 5
  {
    match t
    case Float32 => 0
    case Float16 => 1
    case Uint32 => 2
    case Int32 => 3
    case Bool => 4
  }

  function ConstantTypeName(t: ConstantDataType): string {
    ConstantDataTypeNames[ConstantOrdinal(t)]
  }

  type Int32Value = x: int | -0x8000_0000 <= x < 0x8000_0000

  /** The union member of a constant. Floating-point values are kept as their
      bit patterns; their arithmetic is not part of this model. */
  datatype ConstantValue =
    | F32Value(f32: bv32)
    | F16Value(f16: bv16)
    | U32Value(u32: UInt32)
    | I32Value(i32: Int32Value)
    | BoolValue(boolean: bool)

  /** The type tag that the typed constructors store beside a value. */
  function TypeOf(v: ConstantValue): ConstantDataType {
    match v
    case F32Value(_) => ConstantDataType.Float32
    case F16Value(_) => ConstantDataType.Float16
    case U32Value(_) => ConstantDataType.Uint32
    case I32Value(_) => ConstantDataType.Int32
    case BoolValue(_) => ConstantDataType.Bool
  }

  /** ProgramConstant: a named constant; every constructor takes the tag from the value. */
  datatype ProgramConstant = ProgramConstant(name: string, dataType: ConstantDataType, value: ConstantValue)

  function MakeConstant(name: string, value: ConstantValue): (c: ProgramConstant)
    ensures c.name == name && c.value == value
    ensures c.dataType == TypeOf(value)
  {
    ProgramConstant(name, TypeOf(value), value)
  }

  /** ProgramOverridableConstantValue: a type tag, the union and `has_value`. */
  datatype OverridableConstantValue = OverridableConstantValue(dataType: ConstantDataType, value: ConstantValue, hasValue: bool)

  /** The default constructor: value-initialised tag and union, and "not overriding". */
  function NotOverriding(): (v: OverridableConstantValue)
    ensures !v.hasValue
  {
    OverridableConstantValue(ConstantDataType.Float32, U32Value(0), false)
  }

  /** The typed constructors: the tag matches the value and `has_value` is set. */
  function Overriding(value: ConstantValue): (v: OverridableConstantValue)
    ensures v.hasValue && v.value == value
    ensures v.dataType == TypeOf(value)
  {
    OverridableConstantValue(TypeOf(value), value, true)
  }

  /** ProgramOverridableConstantDefinition: a name, a type and possibly a default. */
  datatype OverridableConstantDefinition =
    OverridableConstantDefinition(name: string, dataType: ConstantDataType, defaultValue: ConstantValue, hasDefaultValue: bool)

  /** The (name, type) constructor: no default value. */
  function DefinitionWithoutDefault(name: string, t: ConstantDataType): (d: OverridableConstantDefinition)
    ensures d.name == name && d.dataType == t && !d.hasDefaultValue
  {
    OverridableConstantDefinition(name, t, U32Value(0), false)
  }

  /** The (name, value) constructors: the value is the default and fixes the type. */
  function DefinitionWithDefault(name: string, value: ConstantValue): (d: OverridableConstantDefinition)
    ensures d.name == name && d.hasDefaultValue && d.defaultValue == value
    ensures d.dataType == TypeOf(value)
  {
    OverridableConstantDefinition(name, TypeOf(value), value, true)
  }

  // ---------------------------------------------------------------------
  // Input dependency flags

  /** ProgramInputTensorDependency: an int whose bits say which facts of an input
      tensor the generated shader depends on. */
  type Dependency = bv32

  const NoDependency: Dependency := 0
  const TypeDependency: Dependency := 1
  const RankDependency: Dependency := 2
  const ShapeDependency: Dependency := 4
  const TypeAndRank: Dependency := Or(TypeDependency, RankDependency)
  const TypeAndShape: Dependency := Or(TypeDependency, ShapeDependency)

  /** operator| : the bitwise or of the underlying ints. */
  function Or(a: Dependency, b: Dependency): Dependency {
    a | b
  }

  /** operator& : the bitwise and of the underlying ints. */
  function And(a: Dependency, b: Dependency): Dependency {
    a & b
  }

  /** The test the cache key applies: `(d & f) == f`. */
  predicate HasFlag(d: Dependency, f: Dependency) {
    And(d, f) == f
  }

  predicate IsSingleFlag(f: Dependency) {
    f == TypeDependency || f == RankDependency || f == ShapeDependency
  }

  /** The named unions are exactly the unions of their parts, and None is 0. */
  lemma NamedUnions()
    ensures NoDependency == 0
    ensures TypeAndRank == 3 && TypeAndShape == 5
    ensures HasFlag(TypeAndRank, TypeDependency) && HasFlag(TypeAndRank, RankDependency) && !HasFlag(TypeAndRank, ShapeDependency)
    ensures HasFlag(TypeAndShape, TypeDependency) && HasFlag(TypeAndShape, ShapeDependency) && !HasFlag(TypeAndShape, RankDependency)
  {
  }

  /** A single flag is set in `a | b` iff it is set in `a` or in `b`, and in
      `a & b` iff it is set in both. */
  lemma FlagsOfOrAnd(a: Dependency, b: Dependency, f: Dependency)
    requires IsSingleFlag(f)
    ensures HasFlag(Or(a, b), f) <==> HasFlag(a, f) || HasFlag(b, f)
    ensures HasFlag(And(a, b), f) <==> HasFlag(a, f) && HasFlag(b, f)
  {
  }

  /** A dependency variable, for the compound assignments `|=` and `&=`, which
      update their left operand in place and return a reference to it. */
  class DependencyVariable {
    var value: Dependency

    constructor (value: Dependency)
      ensures this.value == value
    {
      this.value := value;
    }

    method OrAssign(b: Dependency) returns (r: Dependency)
      modifies this
      ensures value == Or(old(value), b) && r == value
    {
      value := Or(value, b);
      r := value;
    }

    method AndAssign(b: Dependency) returns (r: Dependency)
      modifies this
      ensures value == And(old(value), b) && r == value
    {
      value := And(value, b);
      r := value;
    }
  }

  // ---------------------------------------------------------------------
  // Tensors and inputs

  /** A tensor as the core sees it: an ONNX element type code and a shape. */
  datatype Tensor = Tensor(elementType: nat, shape: seq<nat>) {
    function Rank(): nat { |shape| }
  }

  /** ProgramInput: a tensor and the facts of it the shader depends on. */
  datatype ProgramInput = ProgramInput(tensor: Tensor, dependency: Dependency)

  /** WORKGROUP_SIZE, the default workgroup size along x. */
  const WorkgroupSize: UInt32 := 64

  // ---------------------------------------------------------------------
  // Metadata

  /** The three static arrays a program kind may declare; None when it does not declare one. */
  datatype DeclaredMembers = DeclaredMembers(
    constants: Option<seq<ProgramConstant>>,
    overridableConstants: Option<seq<OverridableConstantDefinition>>,
    uniformVariables: Option<seq<UniformVariableDefinition>>)

  datatype ProgramMetadata = ProgramMetadata(
    constants: seq<ProgramConstant>,
    overridableConstants: seq<OverridableConstantDefinition>,
    uniformVariables: seq<UniformVariableDefinition>)

  /** Program<T>::GetMetadata: each list is the declared array, in order, or empty when undeclared. */
  function GetMetadata(declared: DeclaredMembers): (m: ProgramMetadata)
    ensures declared.constants.None? ==> m.constants == []
    ensures declared.constants.Some? ==> m.constants == declared.constants.value
    ensures declared.overridableConstants.None? ==> m.overridableConstants == []
    ensures declared.overridableConstants.Some? ==> m.overridableConstants == declared.overridableConstants.value
    ensures declared.uniformVariables.None? ==> m.uniformVariables == []
    ensures declared.uniformVariables.Some? ==> m.uniformVariables == declared.uniformVariables.value
  {
    ProgramMetadata(
      match declared.constants case Some(cs) => cs case None => [],
      match declared.overridableConstants case Some(os) => os case None => [],
      match declared.uniformVariables case Some(us) => us case None => [])
  }

  // ---------------------------------------------------------------------
  // The program descriptor

  /** Program: what a kernel fills in, through chained setters that each return
      the program itself, before the program is keyed, built and run. */
  class Program {
    const name: string
    var cacheHint: string
    var inputs: seq<ProgramInput>
    var outputs: seq<Tensor>
    var dispatchX: UInt32
    var dispatchY: UInt32
    var dispatchZ: UInt32
    var uniformVariables: seq<UniformVariable>
    var overridableConstants: seq<OverridableConstantValue>

    /** A fresh program has its name, an empty hint and lists, and dispatch size (0, 0, 0). */
    constructor (name: string)
      ensures this.name == name && cacheHint == ""
      ensures inputs == [] && outputs == []
      ensures dispatchX == 0 && dispatchY == 0 && dispatchZ == 0
      ensures uniformVariables == [] && overridableConstants == []
    {
      this.name := name;
      cacheHint := "";
      inputs, outputs := [], [];
      dispatchX, dispatchY, dispatchZ := 0, 0, 0;
      uniformVariables, overridableConstants := [], [];
    }

    /** CacheHint(args...): the hint becomes the arguments joined with "|". */
    method CacheHint(args: seq<string>) returns (self: Program)
      modifies this`cacheHint
      ensures cacheHint == Join("|", args) && self == this
    {
      cacheHint := Join("|", args);
      self := this;
    }

    /** Inputs replaces the input list with the given one. */
    method Inputs(inputs: seq<ProgramInput>) returns (self: Program)
      modifies this`inputs
      ensures this.inputs == inputs && self == this
    {
      this.inputs := inputs;
      self := this;
    }

    /** Outputs replaces the output list with the given one. */
    method Outputs(outputs: seq<Tensor>) returns (self: Program)
      modifies this`outputs
      ensures this.outputs == outputs && self == this
    {
      this.outputs := outputs;
      self := this;
    }

    /** WorkgroupDispatchSize(x, y, z) sets the three sizes. */
    method WorkgroupDispatchSize(x: UInt32, y: UInt32, z: UInt32) returns (self: Program)
      modifies this`dispatchX, this`dispatchY, this`dispatchZ
      ensures dispatchX == x && dispatchY == y && dispatchZ == z && self == this
    {
      dispatchX, dispatchY, dispatchZ := x, y, z;
      self := this;
    }

    /** WorkgroupDispatchSize(x) is WorkgroupDispatchSize(x, 1, 1). */
    method WorkgroupDispatchSize1D(x: UInt32) returns (self: Program)
      modifies this`dispatchX, this`dispatchY, this`dispatchZ
      ensures dispatchX == x && dispatchY == 1 && dispatchZ == 1 && self == this
    {
      self := WorkgroupDispatchSize(x, 1, 1);
    }

    /** WorkgroupDispatchSize(x, y) is WorkgroupDispatchSize(x, y, 1). */
    method WorkgroupDispatchSize2D(x: UInt32, y: UInt32) returns (self: Program)
      modifies this`dispatchX, this`dispatchY, this`dispatchZ
      ensures dispatchX == x && dispatchY == y && dispatchZ == 1 && self == this
    {
      self := WorkgroupDispatchSize(x, y, 1);
    }

    /** UniformVariables appends the given variables after those already set. */
    method UniformVariables(variables: seq<UniformVariable>) returns (self: Program)
      modifies this`uniformVariables
      ensures uniformVariables == old(uniformVariables) + variables && self == this
    {
      uniformVariables := uniformVariables + variables;
      self := this;
    }
  }
}
