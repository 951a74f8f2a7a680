/** The shader source generator (shader_helper.h, shader_helper.cc): shader
    variables and their element accessors, and the `ShaderHelper` that collects
    variables, helper code and the main function and assembles the final WGSL
    source. */
module Shaders {
  import opened Text
  import opened Outcomes
  import opened Gpu
  import opened Programs
  import Wgsl

  // ---------------------------------------------------------------------
  // Shader variables

  datatype ShaderVariableScope = Input | Output | Local

  /** ShaderVariableDataType, in declaration order; `InvalidType` is what the
      element-type mapping answers for a type it cannot represent. */
  datatype ShaderVariableDataType =
    | InvalidType
    | F32 | Vec2F32 | Vec4F32
    | F16 | Vec2F16 | Vec4F16
    | I32 | Vec2I32 | Vec4I32
    | U32 | Vec2U32 | Vec4U32
    | Int64 | Uint64 | Vec4Bool

  /** The types a constructed variable can have: both constructors refuse `InvalidType`. */
  type VariableType = t: ShaderVariableDataType | t != ShaderVariableDataType.InvalidType witness F32

  predicate IsF16(t: ShaderVariableDataType) {
    t == F16 || t == Vec2F16 || t == Vec4F16
  }

  /** The types whose storage packs values the shader reads in another form. */
  predicate IsPacked(t: ShaderVariableDataType) {
    t == Int64 || t == Uint64 || t == Vec4Bool
  }

  /** The element type of the storage buffer that holds a variable. */
  function StorageType(t: VariableType): (r: string)
    ensures IsPacked(t) ==> r == "vec2<u32>" || r == "u32"
  {
    match t
    case F32 => "f32"
    case Vec2F32 => "vec2<f32>"
    case Vec4F32 => "vec4<f32>"
    case F16 => "f16"
    case Vec2F16 => "vec2<f16>"
    case Vec4F16 => "vec4<f16>"
    case I32 => "i32"
    case Vec2I32 => "vec2<i32>"
    case Vec4I32 => "vec4<i32>"
    case U32 => "u32"
    case Vec2U32 => "vec2<u32>"
    case Vec4U32 => "vec4<u32>"
    case Int64 => "vec2<u32>"
    case Uint64 => "vec2<u32>"
    case Vec4Bool => "u32"
  }

  /** The type of the value the shader computes with: a 64-bit integer is
      handled as its low 32 bits, four booleans as a vec4<bool>. */
  function ValueType(t: VariableType): (r: string)
    ensures r == StorageType(t) <==> !IsPacked(t)
  {
    match t
    case Int64 => "i32"
    case Uint64 => "u32"
    case Vec4Bool => "vec4<bool>"
    case _ => StorageType(t)
  }

  /** How a variable's shape reaches the shader: by rank (the shape in uniforms) or by fixed dimensions. */
  datatype VariableExtent = RankExtent(rank: int) | DimsExtent(dims: seq<nat>)

  datatype ShaderVariable = ShaderVariable(name: string, dataType: VariableType, rank: int, dims: seq<nat>, useUniform: bool)

  /** The two ShaderVariable constructors: each refuses `InvalidType`. */
  function NewVariable(name: string, t: ShaderVariableDataType, extent: VariableExtent): (r: Result<ShaderVariable>)
    ensures r.Err? <==> t == ShaderVariableDataType.InvalidType
    ensures r.Err? ==> r.error == Error.InvalidType
    ensures r.Ok? ==> r.value.name == name && r.value.dataType == t
    ensures r.Ok? ==> (r.value.useUniform <==> extent.RankExtent?)
  {
    if t == ShaderVariableDataType.InvalidType then Err(Error.InvalidType)
    else match extent
      case RankExtent(rank) => Ok(ShaderVariable(name, t, rank, [], true))
      case DimsExtent(dims) => Ok(ShaderVariable(name, t, 0, dims, false))
  }

  /** `name[offset]`: the storage element itself. */
  function Element(v: ShaderVariable, offset: string): string {
    v.name + "[" + offset + "]"
  }

  /** GetByOffset: an expression reading the element at `offset` as a value of `ValueType`. */
  function GetByOffset(v: ShaderVariable, offset: string): (r: string)
    ensures r == Element(v, offset) <==> !IsPacked(v.dataType)
  {
    var e := Element(v, offset);
    match v.dataType
    case Int64 => "i32(" + e + ".x)"
    case Uint64 => "u32(" + e + ".x)"
    case Vec4Bool =>
      "vec4<bool>(bool(" + e + " & 0xFFu), bool(" + e + " & 0xFF00u), bool("
        + e + " & 0xFF0000u), bool(" + e + " & 0xFF000000u))"
    case _ => e
  }

  /** SetByOffset: a statement storing `value` into the element at `offset`. */
  function SetByOffset(v: ShaderVariable, offset: string, value: string): (r: string)
    ensures |r| > |Element(v, offset) + "="| && r[..|Element(v, offset) + "="|] == Element(v, offset) + "="
    ensures r == Element(v, offset) + "=" + value + ";" <==> !IsPacked(v.dataType)
  {
    Element(v, offset) + "=" + StoredValue(v.dataType, value)
  }

  /** What SetByOffset assigns to the element: `value` packed into its storage form. */
  function StoredValue(t: VariableType, value: string): string {
    match t
    case Int64 => "vec2<u32>(u32(" + value + "), select(0u, 0xFFFFFFFFu, " + value + " < 0));"
    case Uint64 => "vec2<u32>(u32(" + value + "), 0u);"
    case Vec4Bool => "dot(vec4<u32>(0x1, 0x100, 0x10000, 0x1000000), vec4<u32>(" + value + "));"
    case _ => value + ";"
  }

  /** The accessors convert exactly where storage and value types differ: for
      every other type they read and write the element as it is. */
  lemma AccessorsConvertExactlyForPackedTypes(v: ShaderVariable, offset: string, value: string)
    ensures GetByOffset(v, offset) == Element(v, offset) <==> StorageType(v.dataType) == ValueType(v.dataType)
    ensures SetByOffset(v, offset, value) == Element(v, offset) + "=" + value + ";" <==> !IsPacked(v.dataType)
    ensures StorageType(v.dataType) == ValueType(v.dataType) <==> !IsPacked(v.dataType)
  {
    var e := Element(v, offset);
    var plain := e + "=" + value + ";";
    if IsPacked(v.dataType) {
      assert |GetByOffset(v, offset)| > |e|;
      assert |SetByOffset(v, offset, value)| > |plain|;
    }
  }

  // What the packed accessors compute, on the values of WGSL's u32 and i32.

  /** u32(i): the bits of an i32 read as a u32. */
  function AsU32(i: Int32Value): UInt32 {
    if i < 0 then i + 0x1_0000_0000 else i
  }

  /** i32(w): the bits of a u32 read as an i32. */
  function AsI32(w: UInt32): Int32Value {
    if w >= 0x8000_0000 then w - 0x1_0000_0000 else w
  }

  datatype U32Pair = U32Pair(x: UInt32, y: UInt32)

  /** The Int64 store: the value and a high word of all ones for a negative value, zero otherwise. */
  function StoreInt64(value: Int32Value): U32Pair {
    U32Pair(AsU32(value), if value < 0 then 0xFFFF_FFFF else 0)
  }

  /** The Int64 load: the low word read as an i32. */
  function LoadInt64(p: U32Pair): Int32Value {
    AsI32(p.x)
  }

  /** An Int64 store writes the 64-bit two's complement form of the value, and the load gives the value back. */
  lemma Int64StoreLoad(value: Int32Value)
    ensures LoadInt64(StoreInt64(value)) == value
    ensures StoreInt64(value).x + StoreInt64(value).y * 0x1_0000_0000 == value % 0x1_0000_0000_0000_0000
  {
  }

  function StoreUint64(value: UInt32): U32Pair {
    U32Pair(value, 0)
  }

  function LoadUint64(p: U32Pair): UInt32 {
    p.x
  }

  /** A Uint64 store writes the value zero-extended to 64 bits, and the load gives it back. */
  lemma Uint64StoreLoad(value: UInt32)
    ensures LoadUint64(StoreUint64(value)) == value
    ensures StoreUint64(value).x + StoreUint64(value).y * 0x1_0000_0000 == value
  {
  }

  datatype Bool4 = Bool4(x: bool, y: bool, z: bool, w: bool)

  function Bit(b: bool): nat {
    if b then 1 else 0
  }

  function BitWord(b: bool): bv32 {
    if b then 1 else 0
  }

  /** The Vec4Bool store: dot((1, 0x100, 0x10000, 0x1000000), vec4<u32>(value)), one byte per component. */
  function StoreVec4Bool(value: Bool4): bv32 {
    BitWord(value.x) + BitWord(value.y) * 0x100 + BitWord(value.z) * 0x1_0000 + BitWord(value.w) * 0x100_0000
  }

  /** The Vec4Bool load: each component is whether its byte is non-zero. */
  function LoadVec4Bool(word: bv32): Bool4 {
    Bool4(word & 0xFF != 0, word & 0xFF00 != 0, word & 0xFF_0000 != 0, word & 0xFF00_0000 != 0)
  }

  /** Loading what a Vec4Bool store wrote gives the four booleans back. */
  lemma Vec4BoolStoreLoad(value: Bool4)
    ensures LoadVec4Bool(StoreVec4Bool(value)) == value
  {
  }

  // ---------------------------------------------------------------------
  // Uniform fields

  function ToScalar(t: UniformDataType): Wgsl.ScalarType {
    match t
    case Float32 => Wgsl.F32
    case Float16 => Wgsl.F16
    case Uint32 => Wgsl.U32
    case Int32 => Wgsl.I32
  }

  /** The uniform type tables agree with WGSL: the type name is the WGSL scalar and the size its byte size. */
  lemma UniformTypeIsWgslScalar(t: UniformDataType)
    ensures UniformTypeName(t) == Wgsl.ScalarName(ToScalar(t))
    ensures ElementSize(t) == Wgsl.ScalarSize(ToScalar(t))
  {
  }

  /** The WGSL type a uniform of `size` elements is declared with in the Uniforms struct. */
  function UniformFieldType(t: UniformDataType, size: nat): Wgsl.WgslType {
    if size > 4 then
      if t == UniformDataType.Float16 then Wgsl.Array(Wgsl.Matrix(2, 4, Wgsl.F16), (size + 7) / 8)
      else Wgsl.Array(Wgsl.Vector(4, ToScalar(t)), (size + 3) / 4)
    else if size > 1 then Wgsl.Vector(size, ToScalar(t))
    else Wgsl.Scalar(ToScalar(t))
  }

  /** One member of the Uniforms struct, without its separator. */
  function UniformField(u: UniformVariable): string {
    "  " + (if u.dataType == UniformDataType.Float16 && u.length > 4 then "@align(16) " else "")
      + u.name + ": " + Wgsl.TypeText(UniformFieldType(u.dataType, u.length))
  }

  function UniformFields(us: seq<UniformVariable>): seq<string> {
    seq(|us|, i requires 0 <= i < |us| => UniformField(us[i]))
  }

  /** The Uniforms struct and its binding, present only when the program has uniforms. */
  function UniformBlock(us: seq<UniformVariable>, binding: nat): string {
    if us == [] then ""
    else
      "struct Uniforms {\n" + Join(",\n", UniformFields(us))
      + ("};\n" + "@group(0) @binding(" + Dec(binding) + ") var<uniform> uniforms: Uniforms;\n")
  }

  /** An array of `n` vec4 of a 4-byte scalar: 16-byte stride, 16 bytes per element. */
  lemma Vec4ArrayLayout(s: Wgsl.ScalarType, n: nat)
    requires Wgsl.ScalarSize(s) == 4 && n >= 1
    ensures Wgsl.WellFormed(Wgsl.Array(Wgsl.Vector(4, s), n))
    ensures Wgsl.UniformStrideOk(Wgsl.Array(Wgsl.Vector(4, s), n))
    ensures Wgsl.SizeOf(Wgsl.Array(Wgsl.Vector(4, s), n)) == n * 16
  {
    var e := Wgsl.Vector(4, s);
    Vec4Stride(s);
    assert Wgsl.UniformStrideOk(e);
  }

  lemma Vec4Stride(s: Wgsl.ScalarType)
    requires Wgsl.ScalarSize(s) == 4
    ensures Wgsl.AlignOf(Wgsl.Vector(4, s)) == 16 && Wgsl.SizeOf(Wgsl.Vector(4, s)) == 16
    ensures Wgsl.Stride(Wgsl.Vector(4, s)) == 16
  {
    assert s == Wgsl.F32 || s == Wgsl.U32 || s == Wgsl.I32;
    assert Wgsl.RoundUp(16, 16) == 16;
  }

  /** An array of `n` mat2x4<f16>: 16-byte stride, 16 bytes per element. */
  lemma Mat2x4ArrayLayout(n: nat)
    requires n >= 1
    ensures Wgsl.WellFormed(Wgsl.Array(Wgsl.Matrix(2, 4, Wgsl.F16), n))
    ensures Wgsl.UniformStrideOk(Wgsl.Array(Wgsl.Matrix(2, 4, Wgsl.F16), n))
    ensures Wgsl.SizeOf(Wgsl.Array(Wgsl.Matrix(2, 4, Wgsl.F16), n)) == n * 16
  {
    var e := Wgsl.Matrix(2, 4, Wgsl.F16);
    assert Wgsl.AlignOf(e) == 8;
    assert Wgsl.SizeOf(e) == 16;
    assert Wgsl.Stride(e) == 16;
    assert Wgsl.Stride(e) % 16 == 0;
    assert Wgsl.UniformStrideOk(e);
  }

  /** Every uniform of one element or more is declared with a well-formed type
      whose array strides the uniform address space accepts, and that holds all
      of its elements. */
  lemma UniformFieldTypeIsValid(t: UniformDataType, size: nat)
    requires size >= 1
    ensures Wgsl.WellFormed(UniformFieldType(t, size))
    ensures Wgsl.UniformStrideOk(UniformFieldType(t, size))
    ensures size * ElementSize(t) <= Wgsl.SizeOf(UniformFieldType(t, size))
  {
    if size > 4 {
      if t == UniformDataType.Float16 {
        var n := (size + 7) / 8;
        Mat2x4ArrayLayout(n);
        assert size * 2 <= n * 16;
      } else {
        var n := (size + 3) / 4;
        Vec4ArrayLayout(ToScalar(t), n);
        assert size * 4 <= n * 16;
      }
    }
  }

  // ---------------------------------------------------------------------
  // Overridable constants

  /** A WGSL boolean literal, if `s` is one. */
  function WgslBoolLiteral(s: string): Option<bool> {
    if s == "true" then Some(true) else if s == "false" then Some(false) else None
  }

  /** The default of a boolean constant as the source writes it: the ternary
      binds looser than `<<`, so the stream receives the bool `value == 0`,
      printed without boolalpha, and the chosen literal is discarded. */
  function BoolDefaultAsWritten(b: bool): string {
    Dec(Bit(!b))
  }

  /** The default of a boolean constant as a WGSL boolean literal. */
  function BoolDefault(b: bool): string {
    if b then "true" else "false"
  }

  /** As written, a boolean default is an integer literal ("1" for false, "0"
      for true), which WGSL does not accept for a bool: no input is rendered as
      a boolean literal. */
  lemma BoolDefaultAsWrittenIsNotBoolLiteral(b: bool)
    ensures WgslBoolLiteral(BoolDefaultAsWritten(b)) == None
    ensures BoolDefaultAsWritten(true) == "0" && BoolDefaultAsWritten(false) == "1"
  {
  }

  /** The corrected default reads back as the same boolean. */
  lemma BoolDefaultRoundTrip(b: bool)
    ensures WgslBoolLiteral(BoolDefault(b)) == Some(b)
  {
  }

  /** The text of a default value, as the generator streams it. Floating-point
      values are printed by `floatText`, which stands for the stream's default
      formatting of a double; a boolean is printed as written, as "0" or "1". */
  function DefaultValueText(v: ConstantValue, floatText: ConstantValue -> string): string {
    match v
    case F32Value(_) => floatText(v)
    case F16Value(_) => floatText(v)
    case I32Value(i) => IntText(i)
    case U32Value(u) => Dec(u)
    case BoolValue(b) => BoolDefaultAsWritten(b)
  }

  /** `override <name>: <type>[ = <default>];` */
  function ConstantDecl(d: OverridableConstantDefinition, floatText: ConstantValue -> string): string {
    "override " + d.name + ": " + ConstantTypeName(d.dataType)
      + (if d.hasDefaultValue then " = " + DefaultValueText(d.defaultValue, floatText) else "") + ";\n"
  }

  function ConstantDecls(defs: seq<OverridableConstantDefinition>, floatText: ConstantValue -> string): string
    decreases |defs|
  {
    if defs == [] then ""
    else ConstantDecls(defs[..|defs| - 1], floatText) + ConstantDecl(defs[|defs| - 1], floatText)
  }

  // ---------------------------------------------------------------------
  // Storage bindings and the other sections

  /** One storage buffer declaration. */
  function StorageDecl(binding: nat, access: string, v: ShaderVariable): string {
    "@group(0) @binding(" + Dec(binding) + ") var<storage, " + access + "> " + v.name
      + ": array<" + StorageType(v.dataType) + ">;\n"
  }

  /** The declarations of `vars`, bound to `first`, `first + 1`, ... */
  function StorageDecls(vars: seq<ShaderVariable>, first: nat, access: string): string
    decreases |vars|
  {
    if vars == [] then ""
    else StorageDecls(vars[..|vars| - 1], first, access) + StorageDecl(first + |vars| - 1, access, vars[|vars| - 1])
  }

  /** The fixed workgroup-size constants every shader starts with. */
  function WorkgroupConstants(): string {
    "const WORKGROUP_SIZE: u32 = " + Dec(WorkgroupSize) + ";\n"
      + "override workgroup_size_x: u32 = WORKGROUP_SIZE;\n"
      + "override workgroup_size_y: u32 = 1;\n"
      + "override workgroup_size_z: u32 = 1;\n\n"
  }

  const IndicesHelperPlaceholder: string := "\n// TODO: add indices helper functions\n\n"

  const EnableF16: string := "enable f16;\n\n"

  /** Each piece of helper code on its own line. */
  function Implementations(impls: seq<string>): string
    decreases |impls|
  {
    if impls == [] then "" else Implementations(impls[..|impls| - 1]) + impls[|impls| - 1] + "\n"
  }

  /** The f16 feature when needed, then the workgroup constants. */
  function Preamble(useF16: bool): string {
    (if useF16 then EnableF16 else "") + WorkgroupConstants()
  }

  /** The whole shader: the f16 feature when needed, the workgroup constants, the
      overridable constants, the storage buffers (inputs first, then outputs),
      the uniforms bound after them, the placeholder for index helpers, the helper
      code and the main function. */
  function FinalSource(useF16: bool, defs: seq<OverridableConstantDefinition>,
                       inputs: seq<ShaderVariable>, outputs: seq<ShaderVariable>,
                       uniforms: seq<UniformVariable>, impls: seq<string>, body: string,
                       floatText: ConstantValue -> string): string {
    Preamble(useF16)
      + ConstantDecls(defs, floatText)
      + StorageDecls(inputs, 0, "read")
      + StorageDecls(outputs, |inputs|, "read_write")
      + UniformBlock(uniforms, |inputs| + |outputs|)
      + IndicesHelperPlaceholder
      + Implementations(impls)
      + body
  }

  /** The shader enables the f16 extension if and only if the generator recorded an f16 variable. */
  lemma FinalSourceEnablesF16(useF16: bool, defs: seq<OverridableConstantDefinition>,
                              inputs: seq<ShaderVariable>, outputs: seq<ShaderVariable>,
                              uniforms: seq<UniformVariable>, impls: seq<string>, body: string,
                              floatText: ConstantValue -> string)
    ensures var src := FinalSource(useF16, defs, inputs, outputs, uniforms, impls, body, floatText);
            (|src| >= |EnableF16| && src[..|EnableF16|] == EnableF16) <==> useF16
  {
    var src := FinalSource(useF16, defs, inputs, outputs, uniforms, impls, body, floatText);
    var w, p := WorkgroupConstants(), Preamble(useF16);
    var n := |EnableF16|;
    assert |w| >= n && w[0] == 'c';
    var t1 := p + ConstantDecls(defs, floatText);
    var t2 := t1 + StorageDecls(inputs, 0, "read");
    var t3 := t2 + StorageDecls(outputs, |inputs|, "read_write");
    var t4 := t3 + UniformBlock(uniforms, |inputs| + |outputs|);
    var t5 := t4 + IndicesHelperPlaceholder;
    var t6 := t5 + Implementations(impls);
    assert src == t6 + body;
    PrefixOfAppend(t6, body, n);
    PrefixOfAppend(t5, Implementations(impls), n);
    PrefixOfAppend(t4, IndicesHelperPlaceholder, n);
    PrefixOfAppend(t3, UniformBlock(uniforms, |inputs| + |outputs|), n);
    PrefixOfAppend(t2, StorageDecls(outputs, |inputs|, "read_write"), n);
    PrefixOfAppend(t1, StorageDecls(inputs, 0, "read"), n);
    PrefixOfAppend(p, ConstantDecls(defs, floatText), n);
    if useF16 {
      assert p == EnableF16 + w;
      assert p[..n] == EnableF16;
    } else {
      assert p == w;
      assert p[0] != EnableF16[0];
    }
  }

  // ---------------------------------------------------------------------
  // The main function

  const MainHeader: string :=
    "@compute @workgroup_size(workgroup_size_x, workgroup_size_y, workgroup_size_z)\n"
    + "fn main(@builtin(global_invocation_id) global_id : vec3<u32>,\n"
    + "        @builtin(workgroup_id) workgroup_id : vec3<u32>,\n"
    + "        @builtin(local_invocation_id) local_id : vec3<u32>"

  const MultiDimensionParameters: string :=
    ",\n"
    + "        @builtin(local_invocation_index) local_idx : u32,\n"
    + "        @builtin(num_workgroups) num_workgroups : vec3<u32>"

  /** `global_idx` taken from global_invocation_id.x. */
  const LinearIndexDecl: string :=
    "  let global_idx = global_id.x;\n"
    + "  let local_idx = local_id.x;\n"

  /** `global_idx` computed from the workgroup's position in the grid and local_invocation_index. */
  const FlatIndexDecl: string :=
    "  let global_idx = (workgroup_id.z * num_workgroups[0] * num_workgroups[1] + workgroup_id.y * num_workgroups[0] + workgroup_id.x)\n"
    + "                     * (workgroup_size_x * workgroup_size_y * workgroup_size_z) + local_idx;\n"

  /** The main function around `body`, with `global_idx` declared one way or the other. */
  function MainFunctionText(linearIndex: bool, body: string): string {
    MainHeader + (if linearIndex then "" else MultiDimensionParameters) + ") {\n"
      + (if linearIndex then LinearIndexDecl else FlatIndexDecl) + body + "\n}\n"
  }

  function ToId3(d: Dim3): Wgsl.Id3 {
    Wgsl.Id3(d.x, d.y, d.z)
  }

  /** The value `global_idx` takes in an invocation, for either declaration. */
  function GlobalIdx(linearIndex: bool, size: Wgsl.Id3, groups: Wgsl.Id3, inv: Wgsl.Invocation): nat {
    if linearIndex then Wgsl.GlobalInvocationId(size, inv).x
    else (inv.workgroup.z * groups.x * groups.y + inv.workgroup.y * groups.x + inv.workgroup.x)
           * (size.x * size.y * size.z) + Wgsl.LocalInvocationIndex(size, inv)
  }

  /** As written, global_invocation_id.x is used whenever the workgroup is one-dimensional. */
  predicate UsesLinearIndexAsWritten(workgroupSize: Dim3) {
    workgroupSize.y == 1 && workgroupSize.z == 1
  }

  /** Corrected: global_invocation_id.x is only used when the dispatch is one-dimensional as well. */
  predicate UsesLinearIndex(workgroupSize: Dim3, dispatch: Dim3) {
    workgroupSize.y == 1 && workgroupSize.z == 1 && dispatch.y == 1 && dispatch.z == 1
  }

  /** The flat index is the workgroup's row-major position times the workgroup
      volume plus the local index. */
  lemma FlatIndexIsComposed(size: Wgsl.Id3, groups: Wgsl.Id3, inv: Wgsl.Invocation)
    ensures GlobalIdx(false, size, groups, inv)
            == Wgsl.Linear(inv.workgroup, groups) * Wgsl.Volume(size) + Wgsl.Linear(inv.local, size)
  {
    Wgsl.LocalIndexIsLinear(size, inv);
    var w := inv.workgroup;
    assert w.z * groups.x * groups.y + w.y * groups.x + w.x == (w.z * groups.y + w.y) * groups.x + w.x;
  }

  /** With the corrected choice, `global_idx` numbers the invocations of a
      dispatch 0, 1, ..., one number each, and stays below their count. */
  lemma GlobalIdxIsInjective(workgroupSize: Dim3, dispatch: Dim3, a: Wgsl.Invocation, b: Wgsl.Invocation)
    requires Wgsl.InDispatch(a, ToId3(workgroupSize), ToId3(dispatch))
    requires Wgsl.InDispatch(b, ToId3(workgroupSize), ToId3(dispatch))
    requires GlobalIdx(UsesLinearIndex(workgroupSize, dispatch), ToId3(workgroupSize), ToId3(dispatch), a)
          == GlobalIdx(UsesLinearIndex(workgroupSize, dispatch), ToId3(workgroupSize), ToId3(dispatch), b)
    ensures a == b
  {
    var size, groups := ToId3(workgroupSize), ToId3(dispatch);
    LinearIndexAgrees(workgroupSize, dispatch, a);
    LinearIndexAgrees(workgroupSize, dispatch, b);
    FlatIndexIsComposed(size, groups, a);
    FlatIndexIsComposed(size, groups, b);
    Wgsl.LinearBijective(a.local, size);
    Wgsl.LinearBijective(b.local, size);
    Wgsl.ComposeSplits(Wgsl.Linear(a.workgroup, groups), Wgsl.Linear(a.local, size), Wgsl.Volume(size));
    Wgsl.ComposeSplits(Wgsl.Linear(b.workgroup, groups), Wgsl.Linear(b.local, size), Wgsl.Volume(size));
    Wgsl.LinearInjective(a.local, b.local, size);
    Wgsl.LinearInjective(a.workgroup, b.workgroup, groups);
  }

  lemma GlobalIdxInRange(workgroupSize: Dim3, dispatch: Dim3, a: Wgsl.Invocation)
    requires Wgsl.InDispatch(a, ToId3(workgroupSize), ToId3(dispatch))
    ensures GlobalIdx(UsesLinearIndex(workgroupSize, dispatch), ToId3(workgroupSize), ToId3(dispatch), a)
            < Wgsl.Volume(ToId3(dispatch)) * Wgsl.Volume(ToId3(workgroupSize))
  {
    var size, groups := ToId3(workgroupSize), ToId3(dispatch);
    LinearIndexAgrees(workgroupSize, dispatch, a);
    FlatIndexIsComposed(size, groups, a);
    Wgsl.LinearBijective(a.local, size);
    Wgsl.LinearBijective(a.workgroup, groups);
    Wgsl.ComposeBelow(Wgsl.Linear(a.workgroup, groups), Wgsl.Linear(a.local, size), Wgsl.Volume(groups), Wgsl.Volume(size));
  }

  /** The invocation whose `global_idx` is `k`. */
  function InvocationAt(workgroupSize: Dim3, dispatch: Dim3, k: nat): Wgsl.Invocation
    requires Wgsl.Positive(ToId3(workgroupSize)) && Wgsl.Positive(ToId3(dispatch))
  {
    var size := ToId3(workgroupSize);
    Wgsl.Invocation(Wgsl.Delinear(k / Wgsl.Volume(size), ToId3(dispatch)), Wgsl.Delinear(k % Wgsl.Volume(size), size))
  }

  /** The invocation at `k` lies in the dispatch; its workgroup is at position
      k / volume and its local id at k % volume. */
  lemma InvocationAtParts(workgroupSize: Dim3, dispatch: Dim3, k: nat)
    requires Wgsl.Positive(ToId3(workgroupSize)) && Wgsl.Positive(ToId3(dispatch))
    requires k < Wgsl.Volume(ToId3(dispatch)) * Wgsl.Volume(ToId3(workgroupSize))
    ensures Wgsl.InDispatch(InvocationAt(workgroupSize, dispatch, k), ToId3(workgroupSize), ToId3(dispatch))
    ensures Wgsl.Linear(InvocationAt(workgroupSize, dispatch, k).workgroup, ToId3(dispatch)) == k / Wgsl.Volume(ToId3(workgroupSize))
    ensures Wgsl.Linear(InvocationAt(workgroupSize, dispatch, k).local, ToId3(workgroupSize)) == k % Wgsl.Volume(ToId3(workgroupSize))
  {
    var size, groups := ToId3(workgroupSize), ToId3(dispatch);
    var v := Wgsl.Volume(size);
    assert v > 0;
    assert k < v * Wgsl.Volume(groups);
    Wgsl.QuotientBelow(k, v, Wgsl.Volume(groups));
    Wgsl.DelinearBelow(k / v, groups);
    Wgsl.DelinearBelow(k % v, size);
  }

  /** Every number below the invocation count is the `global_idx` of some invocation. */
  lemma GlobalIdxIsOnto(workgroupSize: Dim3, dispatch: Dim3, k: nat)
    requires Wgsl.Positive(ToId3(workgroupSize)) && Wgsl.Positive(ToId3(dispatch))
    requires k < Wgsl.Volume(ToId3(dispatch)) * Wgsl.Volume(ToId3(workgroupSize))
    ensures Wgsl.InDispatch(InvocationAt(workgroupSize, dispatch, k), ToId3(workgroupSize), ToId3(dispatch))
    ensures GlobalIdx(UsesLinearIndex(workgroupSize, dispatch), ToId3(workgroupSize), ToId3(dispatch),
                      InvocationAt(workgroupSize, dispatch, k)) == k
  {
    var inv := InvocationAt(workgroupSize, dispatch, k);
    InvocationAtParts(workgroupSize, dispatch, k);
    FlatIndexOfParts(ToId3(workgroupSize), ToId3(dispatch), inv, k);
    LinearIndexAgrees(workgroupSize, dispatch, inv);
  }

  /** The flat index of an invocation whose workgroup is at position k / volume
      and whose local id is at k % volume is `k`. */
  lemma FlatIndexOfParts(size: Wgsl.Id3, groups: Wgsl.Id3, inv: Wgsl.Invocation, k: nat)
    requires Wgsl.Volume(size) > 0
    requires Wgsl.Linear(inv.workgroup, groups) == k / Wgsl.Volume(size)
    requires Wgsl.Linear(inv.local, size) == k % Wgsl.Volume(size)
    ensures GlobalIdx(false, size, groups, inv) == k
  {
    var v := Wgsl.Volume(size);
    var q, m := k / v, k % v;
    assert k == q * v + m;
    FlatIndexIsComposed(size, groups, inv);
  }

  /** When both the workgroup and the dispatch are one-dimensional, global_id.x is the flat index. */
  lemma LinearIndexAgrees(workgroupSize: Dim3, dispatch: Dim3, a: Wgsl.Invocation)
    requires Wgsl.InDispatch(a, ToId3(workgroupSize), ToId3(dispatch))
    ensures GlobalIdx(UsesLinearIndex(workgroupSize, dispatch), ToId3(workgroupSize), ToId3(dispatch), a)
            == GlobalIdx(false, ToId3(workgroupSize), ToId3(dispatch), a)
  {
  }

  /** As written, a workgroup of (64, 1, 1) over the grid (256, 256, 1), the
      grid a dispatch of 65536 workgroups is normalised to, gives two different
      invocations the same `global_idx`, and no invocation reaches index 16384
      of the 4194304 it dispatches. */
  lemma AsWrittenIndexCollides()
    ensures var wg, grid := Dim3(64, 1, 1), Dim3(256, 256, 1);
            var a := Wgsl.Invocation(Wgsl.Id3(0, 0, 0), Wgsl.Id3(0, 0, 0));
            var b := Wgsl.Invocation(Wgsl.Id3(0, 1, 0), Wgsl.Id3(0, 0, 0));
            UsesLinearIndexAsWritten(wg)
            && Wgsl.InDispatch(a, ToId3(wg), ToId3(grid)) && Wgsl.InDispatch(b, ToId3(wg), ToId3(grid)) && a != b
            && GlobalIdx(UsesLinearIndexAsWritten(wg), ToId3(wg), ToId3(grid), a)
               == GlobalIdx(UsesLinearIndexAsWritten(wg), ToId3(wg), ToId3(grid), b)
            && Wgsl.Volume(ToId3(grid)) * Wgsl.Volume(ToId3(wg)) == 4194304
  {
  }

  /** As written, with a one-dimensional workgroup every `global_idx` is below
      dispatch.x times the workgroup width, however many rows the dispatch has. */
  lemma AsWrittenIndexBounded(wg: Dim3, grid: Dim3, a: Wgsl.Invocation)
    requires UsesLinearIndexAsWritten(wg)
    requires Wgsl.InDispatch(a, ToId3(wg), ToId3(grid))
    ensures GlobalIdx(UsesLinearIndexAsWritten(wg), ToId3(wg), ToId3(grid), a) < grid.x * wg.x
  {
    Wgsl.ComposeBelow(a.workgroup.x, a.local.x, grid.x, wg.x);
  }

  /** The main-function checks, in the order the source makes them. The product
      of the workgroup sizes is a 32-bit product and wraps. */
  function MainFunctionBodyCheck(currentBody: string, workgroupSize: Dim3, limits: Limits): (r: Status)
    ensures r.Success? <==>
              currentBody == "" && workgroupSize.x > 0 && workgroupSize.y > 0 && workgroupSize.z > 0
              && workgroupSize.x <= limits.maxComputeWorkgroupSizeX && workgroupSize.y <= limits.maxComputeWorkgroupSizeY
              && workgroupSize.z <= limits.maxComputeWorkgroupSizeZ
              && (workgroupSize.x * workgroupSize.y * workgroupSize.z) % UInt32Modulus <= limits.maxComputeInvocationsPerWorkgroup
    ensures currentBody != "" ==> r == Failure(BodyAlreadySet)
  {
    if currentBody != "" then Failure(BodyAlreadySet)
    else if workgroupSize.x == 0 || workgroupSize.y == 0 || workgroupSize.z == 0 then Failure(ZeroWorkgroupSize)
    else if workgroupSize.x > limits.maxComputeWorkgroupSizeX || workgroupSize.y > limits.maxComputeWorkgroupSizeY
            || workgroupSize.z > limits.maxComputeWorkgroupSizeZ then Failure(WorkgroupSizeExceedsLimit)
    else if (workgroupSize.x * workgroupSize.y * workgroupSize.z) % UInt32Modulus > limits.maxComputeInvocationsPerWorkgroup
      then Failure(TooManyInvocations)
    else Success
  }

  predicate HasF16(vars: seq<ShaderVariable>) {
    exists i :: 0 <= i < |vars| && IsF16(vars[i].dataType)
  }

  lemma HasF16Append(vars: seq<ShaderVariable>, v: ShaderVariable)
    ensures HasF16(vars + [v]) <==> HasF16(vars) || IsF16(v.dataType)
  {
    if HasF16(vars) {
      var i :| 0 <= i < |vars| && IsF16(vars[i].dataType);
      assert (vars + [v])[i] == vars[i];
    }
    if IsF16(v.dataType) {
      assert (vars + [v])[|vars|] == v;
    }
  }

  /** Streams one overridable constant declaration. */
  method StreamConstantDecl(ss: string, constant: OverridableConstantDefinition, floatText: ConstantValue -> string)
    returns (r: string)
    ensures r == ss + ConstantDecl(constant, floatText)
  {
    var head := "override " + constant.name + ": " + ConstantTypeName(constant.dataType);
    var value := "";
    if constant.hasDefaultValue {
      value := " = " + DefaultValueText(constant.defaultValue, floatText);
    }
    r := ss + head;
    r := r + value;
    r := r + ";\n";
    AppendPieces(ss, head, value, ";\n");
  }

  /** The section writers GetFinalSourceCode streams with. */
  method WriteConstantDecls(ss: string, defs: seq<OverridableConstantDefinition>, floatText: ConstantValue -> string)
    returns (r: string)
    ensures r == ss + ConstantDecls(defs, floatText)
  {
    r := ss;
    var i := 0;
    while i < |defs|
      invariant 0 <= i <= |defs|
      invariant r == ss + ConstantDecls(defs[..i], floatText)
    {
      assert defs[..i + 1][..i] == defs[..i];
      ghost var done := ConstantDecls(defs[..i], floatText);
      r := StreamConstantDecl(r, defs[i], floatText);
      AppendAssoc(ss, done, ConstantDecl(defs[i], floatText));
      i := i + 1;
    }
    assert defs[..i] == defs;
  }

  /** Streams one storage buffer declaration. */
  method StreamStorageDecl(ss: string, binding: nat, access: string, v: ShaderVariable) returns (r: string)
    ensures r == ss + StorageDecl(binding, access, v)
  {
    var head := "@group(0) @binding(" + Dec(binding) + ") var<storage, " + access + "> ";
    var tail := ": array<" + StorageType(v.dataType) + ">;\n";
    r := ss + head;
    r := r + v.name;
    r := r + tail;
    AppendPieces(ss, head, v.name, tail);
  }

  /** The declarations of one more variable add its declaration at the next binding. */
  lemma StorageDeclsStep(vars: seq<ShaderVariable>, i: nat, first: nat, access: string)
    requires i < |vars|
    ensures StorageDecls(vars[..i + 1], first, access)
            == StorageDecls(vars[..i], first, access) + StorageDecl(first + i, access, vars[i])
  {
    assert vars[..i + 1][..i] == vars[..i];
  }

  method WriteStorageDecls(ss: string, vars: seq<ShaderVariable>, first: nat, access: string)
    returns (r: string, next: nat)
    ensures r == ss + StorageDecls(vars, first, access)
    ensures next == first + |vars|
  {
    r := ss;
    next := first;
    var i := 0;
    while i < |vars|
      invariant 0 <= i <= |vars|
      invariant next == first + i
      invariant r == ss + StorageDecls(vars[..i], first, access)
    {
      ghost var done := StorageDecls(vars[..i], first, access);
      r := StreamStorageDecl(r, next, access, vars[i]);
      StorageDeclsStep(vars, i, first, access);
      AppendAssoc(ss, done, StorageDecl(next, access, vars[i]));
      next := next + 1;
      i := i + 1;
    }
    assert vars[..i] == vars;
  }

  lemma Mat2x4ArrayText(n: nat)
    ensures Wgsl.TypeText(Wgsl.Array(Wgsl.Matrix(2, 4, Wgsl.F16), n)) == "array<mat2x4<" + "f16" + ">, " + Dec(n) + ">"
  {
    var m := Wgsl.TypeText(Wgsl.Matrix(2, 4, Wgsl.F16));
    assert Dec(2) == "2" && Dec(4) == "4";
    assert m == "mat2x4<f16>";
    assert "array<" + m + ", " == "array<mat2x4<" + "f16" + ">, ";
  }

  lemma Vec4ArrayText(s: Wgsl.ScalarType, n: nat)
    ensures Wgsl.TypeText(Wgsl.Array(Wgsl.Vector(4, s), n)) == "array<vec4<" + Wgsl.ScalarName(s) + ">, " + Dec(n) + ">"
  {
    var v := Wgsl.TypeText(Wgsl.Vector(4, s));
    assert Dec(4) == "4";
    assert v == "vec4<" + Wgsl.ScalarName(s) + ">";
    assert "array<" + v + ", " == "array<vec4<" + Wgsl.ScalarName(s) + ">, ";
  }

  /** The text the source streams for one uniform member's type. */
  lemma UniformFieldTypeText(t: UniformDataType, size: nat)
    ensures Wgsl.TypeText(UniformFieldType(t, size))
            == if size > 4 then
                 if t == UniformDataType.Float16 then "array<mat2x4<" + UniformTypeName(t) + ">, " + Dec((size + 7) / 8) + ">"
                 else "array<vec4<" + UniformTypeName(t) + ">, " + Dec((size + 3) / 4) + ">"
               else if size > 1 then "vec" + Dec(size) + "<" + UniformTypeName(t) + ">"
               else UniformTypeName(t)
  {
    UniformTypeIsWgslScalar(t);
    if size > 4 {
      if t == UniformDataType.Float16 {
        Mat2x4ArrayText((size + 7) / 8);
      } else {
        Vec4ArrayText(ToScalar(t), (size + 3) / 4);
      }
    }
  }

  /** Streams one member of the Uniforms struct. */
  method StreamUniformField(ss: string, u: UniformVariable) returns (r: string)
    ensures r == ss + UniformField(u)
  {
    var typeName := UniformTypeName(u.dataType);
    var size := u.length;
    var alignment := if u.dataType == UniformDataType.Float16 && size > 4 then "@align(16) " else "";
    var head := "  " + alignment + u.name + ": ";
    var typeText: string;
    if size > 4 {
      if u.dataType == UniformDataType.Float16 {
        typeText := "array<mat2x4<" + typeName + ">, " + Dec((size + 7) / 8) + ">";
      } else {
        typeText := "array<vec4<" + typeName + ">, " + Dec((size + 3) / 4) + ">";
      }
    } else if size > 1 {
      typeText := "vec" + Dec(size) + "<" + typeName + ">";
    } else {
      typeText := typeName;
    }
    UniformFieldTypeText(u.dataType, size);
    r := ss + head;
    r := r + typeText;
    AppendAssoc(ss, head, typeText);
  }

  lemma UniformFieldsStep(us: seq<UniformVariable>, i: nat)
    requires i < |us|
    ensures UniformFields(us[..i + 1]) == UniformFields(us[..i]) + [UniformField(us[i])]
  {
  }

  /** The struct's fields, one per uniform, separated by ",\n" with a `first` flag. */
  method WriteUniformFields(ss: string, us: seq<UniformVariable>) returns (r: string)
    ensures r == ss + Join(",\n", UniformFields(us))
  {
    var first := true;
    r := ss;
    var i := 0;
    while i < |us|
      invariant 0 <= i <= |us|
      invariant first <==> i == 0
      invariant r == ss + Join(",\n", UniformFields(us[..i]))
    {
      UniformFieldsStep(us, i);
      JoinStep(ss, ",\n", UniformFields(us[..i]), UniformField(us[i]));
      if first {
        first := false;
      } else {
        r := r + ",\n";
      }
      r := StreamUniformField(r, us[i]);
      i := i + 1;
    }
    assert us[..i] == us;
  }

  method WriteUniformBlock(ss: string, us: seq<UniformVariable>, binding: nat) returns (r: string)
    ensures r == ss + UniformBlock(us, binding)
  {
    r := ss;
    if us != [] {
      r := WriteUniformFields(r + "struct Uniforms {\n", us);
      ghost var fields := Join(",\n", UniformFields(us));
      var tail := "};\n" + "@group(0) @binding(" + Dec(binding) + ") var<uniform> uniforms: Uniforms;\n";
      r := r + tail;
      AppendPieces(ss, "struct Uniforms {\n", fields, tail);
    }
  }

  method WriteImplementations(ss: string, impls: seq<string>) returns (r: string)
    ensures r == ss + Implementations(impls)
  {
    r := ss;
    var i := 0;
    while i < |impls|
      invariant 0 <= i <= |impls|
      invariant r == ss + Implementations(impls[..i])
    {
      assert impls[..i + 1][..i] == impls[..i];
      r := r + impls[i] + "\n";
      i := i + 1;
    }
    assert impls[..i] == impls;
  }

  /** Streams the f16 feature line when needed and the workgroup constants. */
  method WritePreamble(useF16: bool) returns (ss: string)
    ensures ss == Preamble(useF16)
  {
    ss := "";
    if useF16 {
      ss := EnableF16;
    }
    ss := ss + WorkgroupConstants();
  }

  /** Streams the whole shader. */
  method WriteSource(useF16: bool, defs: seq<OverridableConstantDefinition>,
                     inputs: seq<ShaderVariable>, outputs: seq<ShaderVariable>,
                     uniforms: seq<UniformVariable>, impls: seq<string>, body: string,
                     floatText: ConstantValue -> string) returns (ss: string)
    ensures ss == FinalSource(useF16, defs, inputs, outputs, uniforms, impls, body, floatText)
  {
    ss := WritePreamble(useF16);
    ss := WriteSections(ss, defs, inputs, outputs, uniforms, impls, body, floatText);
  }

  /** Streams everything after the preamble. */
  method WriteSections(ss: string, defs: seq<OverridableConstantDefinition>,
                       inputs: seq<ShaderVariable>, outputs: seq<ShaderVariable>,
                       uniforms: seq<UniformVariable>, impls: seq<string>, body: string,
                       floatText: ConstantValue -> string) returns (r: string)
    ensures r == ss + ConstantDecls(defs, floatText)
                 + StorageDecls(inputs, 0, "read")
                 + StorageDecls(outputs, |inputs|, "read_write")
                 + UniformBlock(uniforms, |inputs| + |outputs|)
                 + IndicesHelperPlaceholder
                 + Implementations(impls)
                 + body
  {
    r := WriteConstantDecls(ss, defs, floatText);
    var variableCount := 0;
    r, variableCount := WriteStorageDecls(r, inputs, variableCount, "read");
    r, variableCount := WriteStorageDecls(r, outputs, variableCount, "read_write");
    r := WriteUniformBlock(r, uniforms, variableCount);
    r := r + IndicesHelperPlaceholder;
    r := WriteImplementations(r, impls);
    r := r + body;
  }

  // ---------------------------------------------------------------------
  // The generator

  class ShaderHelper {
    const program: Program
    const metadata: ProgramMetadata
    const device: Device
    const limits: Limits
    const dispatchX: UInt32
    const dispatchY: UInt32
    const dispatchZ: UInt32
    var inputVars: seq<ShaderVariable>
    var outputVars: seq<ShaderVariable>
    var implementation: seq<string>
    var body: string
    var constants: map<string, nat>
    var useF16: bool

    /** The generator's invariant: a positive dispatch size, no more storage
        buffers than a shader stage may have, and `useF16` set exactly when an
        f16 variable has been added. */
    predicate Valid()
      reads this
    {
      dispatchX > 0 && dispatchY > 0 && dispatchZ > 0
      && |inputVars| + |outputVars| <= limits.maxStorageBuffersPerShaderStage
      && (useF16 <==> HasF16(inputVars) || HasF16(outputVars))
    }

    function Dispatch(): Dim3 {
      Dim3(dispatchX, dispatchY, dispatchZ)
    }

    constructor (program: Program, metadata: ProgramMetadata, device: Device, limits: Limits,
                 dispatchX: UInt32, dispatchY: UInt32, dispatchZ: UInt32)
      requires dispatchX > 0 && dispatchY > 0 && dispatchZ > 0
      ensures Valid()
      ensures this.program == program && this.metadata == metadata
      ensures this.device == device && this.limits == limits
      ensures Dispatch() == Dim3(dispatchX, dispatchY, dispatchZ)
      ensures inputVars == [] && outputVars == [] && implementation == [] && body == ""
      ensures constants == map[] && !useF16
    {
      this.program, this.metadata, this.device, this.limits := program, metadata, device, limits;
      this.dispatchX, this.dispatchY, this.dispatchZ := dispatchX, dispatchY, dispatchZ;
      inputVars, outputVars, implementation, body := [], [], [], "";
      constants, useF16 := map[], false;
    }

    /** The constructor with its check: a zero dispatch size is refused. */
    static method Create(program: Program, metadata: ProgramMetadata, device: Device, limits: Limits,
                         dispatchX: UInt32, dispatchY: UInt32, dispatchZ: UInt32)
      returns (r: Result<ShaderHelper>)
      ensures r.Err? <==> dispatchX == 0 || dispatchY == 0 || dispatchZ == 0
      ensures r.Err? ==> r.error == InvalidDispatchGroupSize
      ensures r.Ok? ==> fresh(r.value) && r.value.Valid()
      ensures r.Ok? ==> r.value.program == program && r.value.metadata == metadata
                        && r.value.device == device && r.value.limits == limits
                        && r.value.Dispatch() == Dim3(dispatchX, dispatchY, dispatchZ)
      ensures r.Ok? ==> r.value.inputVars == [] && r.value.outputVars == [] && r.value.implementation == []
                        && r.value.body == "" && r.value.constants == map[] && !r.value.useF16
    {
      if dispatchX == 0 || dispatchY == 0 || dispatchZ == 0 {
        return Err(InvalidDispatchGroupSize);
      }
      var sh := new ShaderHelper(program, metadata, device, limits, dispatchX, dispatchY, dispatchZ);
      return Ok(sh);
    }

    /** AddVariable: a storage buffer variable in the input or output scope,
        while the stage has storage buffers left; an f16 type turns on `useF16`. */
    method AddVariable(scope: ShaderVariableScope, name: string, t: ShaderVariableDataType, extent: VariableExtent)
      returns (r: Result<ShaderVariable>)
      requires Valid()
      modifies this`inputVars, this`outputVars, this`useF16
      ensures Valid()
      ensures r.Err? <==> scope == Local || old(|inputVars| + |outputVars|) >= limits.maxStorageBuffersPerShaderStage
                          || t == ShaderVariableDataType.InvalidType
      ensures r.Err? ==> r.error == (if t == ShaderVariableDataType.InvalidType && scope != Local
                                        && old(|inputVars| + |outputVars|) < limits.maxStorageBuffersPerShaderStage
                                     then Error.InvalidType else TooManyStorageBuffers)
      ensures r.Err? ==> inputVars == old(inputVars) && outputVars == old(outputVars) && useF16 == old(useF16)
      ensures r.Ok? ==> NewVariable(name, t, extent) == r && useF16 == (old(useF16) || IsF16(t))
      ensures r.Ok? && scope == Input ==> inputVars == old(inputVars) + [r.value] && outputVars == old(outputVars)
      ensures r.Ok? && scope == Output ==> outputVars == old(outputVars) + [r.value] && inputVars == old(inputVars)
    {
      if !(scope == Input || scope == Output) || |inputVars| + |outputVars| >= limits.maxStorageBuffersPerShaderStage {
        return Err(TooManyStorageBuffers);
      }
      r := AddCheckedVariable(scope, name, t, extent);
    }

    /** The rest of AddVariable once the scope and the buffer count are checked:
        `useF16` is turned on for an f16 type before the variable is built. */
    method AddCheckedVariable(scope: ShaderVariableScope, name: string, t: ShaderVariableDataType, extent: VariableExtent)
      returns (r: Result<ShaderVariable>)
      requires Valid() && scope != Local && |inputVars| + |outputVars| < limits.maxStorageBuffersPerShaderStage
      modifies this`inputVars, this`outputVars, this`useF16
      ensures Valid()
      ensures r.Err? <==> t == ShaderVariableDataType.InvalidType
      ensures r.Err? ==> r.error == Error.InvalidType
      ensures r.Err? ==> inputVars == old(inputVars) && outputVars == old(outputVars) && useF16 == old(useF16)
      ensures r.Ok? ==> NewVariable(name, t, extent) == r && useF16 == (old(useF16) || IsF16(t))
      ensures r.Ok? && scope == Input ==> inputVars == old(inputVars) + [r.value] && outputVars == old(outputVars)
      ensures r.Ok? && scope == Output ==> outputVars == old(outputVars) + [r.value] && inputVars == old(inputVars)
    {
      if IsF16(t) {
        useF16 := true;
      }
      r := NewVariable(name, t, extent);
      if r.Err? {
        return;
      }
      PushVariable(scope, r.value);
    }

    /** The push onto the scope's list that ends AddVariable, once `useF16` covers the new variable. */
    method PushVariable(scope: ShaderVariableScope, v: ShaderVariable)
      requires scope != Local && |inputVars| + |outputVars| < limits.maxStorageBuffersPerShaderStage
      requires dispatchX > 0 && dispatchY > 0 && dispatchZ > 0
      requires useF16 <==> HasF16(inputVars) || HasF16(outputVars) || IsF16(v.dataType)
      modifies this`inputVars, this`outputVars
      ensures Valid()
      ensures scope == Input ==> inputVars == old(inputVars) + [v] && outputVars == old(outputVars)
      ensures scope == Output ==> outputVars == old(outputVars) + [v] && inputVars == old(inputVars)
    {
      if scope == Input {
        HasF16Append(inputVars, v);
        inputVars := inputVars + [v];
      } else {
        HasF16Append(outputVars, v);
        outputVars := outputVars + [v];
      }
    }

    /** AppendImplementation: the pieces, concatenated, become one more piece of helper code. */
    method AppendImplementation(pieces: seq<string>) returns (self: ShaderHelper)
      modifies this`implementation
      ensures implementation == old(implementation) + [Concat(pieces)] && self == this
    {
      implementation := implementation + [Concat(pieces)];
      self := this;
    }

    /** MainFunctionBody(workgroup size, pieces): once the checks pass, the body
        becomes the main function around the concatenated pieces and the
        workgroup sizes are recorded as pipeline constants. */
    method MainFunctionBody(workgroupSize: Dim3, pieces: seq<string>) returns (status: Status)
      requires Valid()
      modifies this`body, this`constants
      ensures Valid()
      ensures status == MainFunctionBodyCheck(old(body), workgroupSize, limits)
      ensures status.Success? ==> body == MainFunctionText(UsesLinearIndexAsWritten(workgroupSize), Concat(pieces))
      ensures status.Success? ==> constants == old(constants)["workgroup_size_x" := workgroupSize.x]
                                    ["workgroup_size_y" := workgroupSize.y]["workgroup_size_z" := workgroupSize.z]
      ensures status.Failure? ==> body == old(body) && constants == old(constants)
    {
      status := MainFunctionBodyCheck(body, workgroupSize, limits);
      if status.Failure? {
        return;
      }
      var linearIndex := UsesLinearIndexAsWritten(workgroupSize);
      constants := constants["workgroup_size_x" := workgroupSize.x];
      constants := constants["workgroup_size_y" := workgroupSize.y];
      constants := constants["workgroup_size_z" := workgroupSize.z];
      var ss := MainHeader;
      if !linearIndex {
        ss := ss + MultiDimensionParameters;
      }
      ss := ss + ") {\n";
      if linearIndex {
        ss := ss + LinearIndexDecl;
      } else {
        ss := ss + FlatIndexDecl;
      }
      ss := ss + Concat(pieces) + "\n}\n";
      body := ss;
    }

    /** MainFunctionBody(pieces): the same with the default workgroup size (64, 1, 1),
        which is one-dimensional, so the body always takes `global_id.x` as its index. */
    method MainFunctionBodyDefault(pieces: seq<string>) returns (status: Status)
      requires Valid()
      modifies this`body, this`constants
      ensures Valid()
      ensures status == MainFunctionBodyCheck(old(body), Dim3(WorkgroupSize, 1, 1), limits)
      ensures status.Success? ==> body == MainFunctionText(true, Concat(pieces))
      ensures status.Failure? ==> body == old(body) && constants == old(constants)
    {
      status := MainFunctionBody(Dim3(WorkgroupSize, 1, 1), pieces);
    }

    /** A statement ending invocations whose `global_idx` is not below `size`. */
    function GuardAgainstOutOfBoundsWorkgroupSizes(size: string): string {
      "  if (global_idx >= " + size + ") { return; }\n"
    }

    /** GetFinalSourceCode: the whole shader, or an error when it needs f16 and the device lacks the feature. */
    method GetFinalSourceCode(floatText: ConstantValue -> string) returns (r: Result<string>)
      ensures r.Err? <==> useF16 && !device.hasShaderF16
      ensures r.Err? ==> r.error == F16NotSupported
      ensures r.Ok? ==> r.value == FinalSource(useF16, metadata.overridableConstants, inputVars, outputVars,
                                               program.uniformVariables, implementation, body, floatText)
    {
      if useF16 && !device.hasShaderF16 {
        return Err(F16NotSupported);
      }
      var ss := WriteSource(useF16, metadata.overridableConstants, inputVars, outputVars, program.uniformVariables,
                            implementation, body, floatText);
      return Ok(ss);
    }
  }
}
