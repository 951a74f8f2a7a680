/** The program manager (program_manager.h, program_manager.cc): the uniform
    buffer layout a built program records, the normalisation of a dispatch to
    the per-dimension workgroup limit, and the cache of built programs. */
module ProgramManagement {
  import opened Outcomes
  import opened Gpu
  import opened Programs
  import opened Shaders
  import Wgsl

  // ---------------------------------------------------------------------
  // Uniform layout

  /** ProgramUniformInfo: where one uniform sits in the uniform buffer. */
  datatype ProgramUniformInfo = ProgramUniformInfo(dataType: UniformDataType, offset: nat, length: nat)

  /** The alignment the source gives a uniform of `length` elements. */
  function BaseAlignment(t: UniformDataType, length: nat): nat {
    if t == UniformDataType.Float16 then
      (if length > 4 then 16 else if length > 2 then 8 else length * ElementSize(t))
    else
      (if length > 2 then 16 else length * ElementSize(t))
  }

  /** The size of one vec4 or mat2x4 packing unit of a long uniform. */
  function StructSize(t: UniformDataType, length: nat): nat {
    if t == UniformDataType.Float16 && length <= 4 then length * ElementSize(t) else 16
  }

  function ElementsPerStruct(t: UniformDataType): nat {
    if t == UniformDataType.Float16 then 8 else 4
  }

  /** The bytes a uniform of `length` elements takes up. */
  function ConsumedSize(t: UniformDataType, length: nat): nat {
    if length > 4 then (length + ElementsPerStruct(t) - 1) / ElementsPerStruct(t) * StructSize(t, length)
    else length * ElementSize(t)
  }

  /** The layout divides by each alignment, which is zero for an empty uniform. */
  predicate LayoutDefined(us: seq<UniformVariable>) {
    forall i :: 0 <= i < |us| ==> us[i].length >= 1
  }

  /** Where a uniform goes with the cursor at `cursor`: at the cursor rounded
      up to the uniform's alignment; and the cursor after it. */
  function Place(cursor: nat, u: UniformVariable): (r: (ProgramUniformInfo, nat))
    requires u.length >= 1
    ensures r.0.dataType == u.dataType && r.0.length == u.length
    ensures r.0.offset % BaseAlignment(u.dataType, u.length) == 0
    ensures cursor <= r.0.offset < cursor + BaseAlignment(u.dataType, u.length)
    ensures r.1 == r.0.offset + ConsumedSize(u.dataType, u.length)
  {
    var offset := Wgsl.RoundUp(cursor, BaseAlignment(u.dataType, u.length));
    Wgsl.RoundUpIsLeastMultiple(cursor, BaseAlignment(u.dataType, u.length));
    (ProgramUniformInfo(u.dataType, offset, u.length), offset + ConsumedSize(u.dataType, u.length))
  }

  /** The uniform infos and the cursor after the last uniform, laying out `us` from offset 0. */
  function Layout(us: seq<UniformVariable>): (r: (seq<ProgramUniformInfo>, nat))
    requires LayoutDefined(us)
    ensures |r.0| == |us|
    decreases |us|
  {
    if us == [] then ([], 0)
    else
      var prev := Layout(us[..|us| - 1]);
      var placed := Place(prev.1, us[|us| - 1]);
      (prev.0 + [placed.0], placed.1)
  }

  /** The uniform buffer size: the cursor rounded up to 16 bytes. */
  function UniformTotalSize(us: seq<UniformVariable>): nat
    requires LayoutDefined(us)
  {
    Wgsl.RoundUp(Layout(us).1, 16)
  }

  /** The WGSL types of the Uniforms struct members. */
  function FieldTypes(us: seq<UniformVariable>): (r: seq<Wgsl.WgslType>)
    ensures |r| == |us|
    ensures forall i :: 0 <= i < |r| ==> Wgsl.AlignOf(r[i]) > 0
  {
    seq(|us|, i requires 0 <= i < |us| => UniformFieldType(us[i].dataType, us[i].length))
  }

  /** For each uniform, the alignment and size the layout uses are the WGSL
      alignment and size of the type the shader declares it with, and that
      size holds all of its elements. */
  lemma LayoutFieldMatchesWgsl(t: UniformDataType, length: nat)
    requires length >= 1
    ensures BaseAlignment(t, length) == Wgsl.AlignOf(UniformFieldType(t, length))
    ensures ConsumedSize(t, length) == Wgsl.SizeOf(UniformFieldType(t, length))
    ensures BaseAlignment(t, length) > 0 && 16 % BaseAlignment(t, length) == 0
    ensures length * ElementSize(t) <= ConsumedSize(t, length)
  {
    UniformFieldTypeIsValid(t, length);
    if length > 4 {
      if t == UniformDataType.Float16 {
        Mat2x4ArrayLayout((length + 7) / 8);
        assert Wgsl.AlignOf(Wgsl.Matrix(2, 4, Wgsl.F16)) == 8;
        assert Wgsl.RoundUp(8, 16) == 16;
      } else {
        Vec4ArrayLayout(ToScalar(t), (length + 3) / 4);
        Vec4Stride(ToScalar(t));
        assert Wgsl.RoundUp(16, 16) == 16;
      }
    }
  }

  /** The layout is the WGSL structure layout of the Uniforms struct the shader
      declares: every offset is OffsetOfMember, and the cursor is the end of
      the last member. */
  lemma {:induction false} LayoutFollowsWgsl(us: seq<UniformVariable>)
    requires LayoutDefined(us)
    ensures forall i :: 0 <= i < |us| ==> Layout(us).0[i] == ProgramUniformInfo(us[i].dataType, Wgsl.MemberOffsets(FieldTypes(us))[i], us[i].length)
    ensures Layout(us).1 == Wgsl.EndOfMembers(Wgsl.MemberOffsets(FieldTypes(us)), FieldTypes(us))
    decreases |us|
  {
    if us != [] {
      var n := |us|;
      var init := us[..n - 1];
      var ts := FieldTypes(us);
      assert FieldTypes(init) == ts[..n - 1];
      LayoutFollowsWgsl(init);
      LayoutFieldMatchesWgsl(us[n - 1].dataType, us[n - 1].length);
      var prev := Wgsl.MemberOffsets(ts[..n - 1]);
      assert Wgsl.MemberOffsets(ts) == prev + [Wgsl.RoundUp(Wgsl.EndOfMembers(prev, ts[..n - 1]), Wgsl.AlignOf(ts[n - 1]))];
      forall i | 0 <= i < n - 1
        ensures Layout(us).0[i] == ProgramUniformInfo(us[i].dataType, Wgsl.MemberOffsets(ts)[i], us[i].length)
      {
        assert Layout(us).0[i] == Layout(init).0[i];
        assert init[i] == us[i];
      }
    }
  }

  /** The end of uniform `i` in the layout. */
  function InfoEnd(info: ProgramUniformInfo): nat {
    info.offset + ConsumedSize(info.dataType, info.length)
  }

  /** Each uniform keeps its type and length and sits at a multiple of its alignment. */
  lemma {:induction false} LayoutKeepsFields(us: seq<UniformVariable>)
    requires LayoutDefined(us)
    ensures forall i :: 0 <= i < |us| ==> Layout(us).0[i].dataType == us[i].dataType && Layout(us).0[i].length == us[i].length
    ensures forall i :: 0 <= i < |us| ==> Layout(us).0[i].offset % BaseAlignment(us[i].dataType, us[i].length) == 0
    decreases |us|
  {
    if us != [] {
      var n := |us|;
      var init := us[..n - 1];
      LayoutKeepsFields(init);
      var u := us[n - 1];
      var prev := Layout(init);
      LayoutFieldMatchesWgsl(u.dataType, u.length);
      Wgsl.RoundUpIsLeastMultiple(prev.1, BaseAlignment(u.dataType, u.length));
      forall i | 0 <= i < n - 1
        ensures Layout(us).0[i] == prev.0[i] && us[i] == init[i]
      {
      }
    }
  }

  /** Every uniform ends at or before the offset of each later one, and at or
      before the cursor. */
  lemma {:induction false} LayoutIsOrdered(us: seq<UniformVariable>)
    requires LayoutDefined(us)
    ensures forall i, j :: 0 <= i < j < |us| ==> InfoEnd(Layout(us).0[i]) <= Layout(us).0[j].offset
    ensures forall i :: 0 <= i < |us| ==> InfoEnd(Layout(us).0[i]) <= Layout(us).1
    decreases |us|
  {
    if us != [] {
      var n := |us|;
      var init := us[..n - 1];
      LayoutIsOrdered(init);
      var u := us[n - 1];
      var prev := Layout(init);
      LayoutFieldMatchesWgsl(u.dataType, u.length);
      Wgsl.RoundUpIsLeastMultiple(prev.1, BaseAlignment(u.dataType, u.length));
      var infos := Layout(us).0;
      assert InfoEnd(infos[n - 1]) == Layout(us).1;
      forall i | 0 <= i < n - 1
        ensures infos[i] == prev.0[i]
      {
      }
    }
  }

  /** The buffer size is a multiple of 16 and less than 16 bytes past the cursor. */
  lemma UniformTotalSizeIsPadded(us: seq<UniformVariable>)
    requires LayoutDefined(us)
    ensures UniformTotalSize(us) % 16 == 0 && Layout(us).1 <= UniformTotalSize(us) < Layout(us).1 + 16
  {
    Wgsl.RoundUpIsLeastMultiple(Layout(us).1, 16);
  }

  /** The layout places every uniform at a multiple of its alignment, after
      the end of every earlier one, and inside the buffer, whose size is a
      multiple of 16 and less than 16 bytes past the last uniform. */
  lemma LayoutIsSound(us: seq<UniformVariable>)
    requires LayoutDefined(us)
    ensures forall i :: 0 <= i < |us| ==> Layout(us).0[i].dataType == us[i].dataType && Layout(us).0[i].length == us[i].length
    ensures forall i :: 0 <= i < |us| ==> Layout(us).0[i].offset % BaseAlignment(us[i].dataType, us[i].length) == 0
    ensures forall i, j :: 0 <= i < j < |us| ==> InfoEnd(Layout(us).0[i]) <= Layout(us).0[j].offset
    ensures forall i :: 0 <= i < |us| ==> InfoEnd(Layout(us).0[i]) <= Layout(us).1
    ensures UniformTotalSize(us) % 16 == 0 && Layout(us).1 <= UniformTotalSize(us) < Layout(us).1 + 16
  {
    LayoutKeepsFields(us);
    LayoutIsOrdered(us);
    UniformTotalSizeIsPadded(us);
  }

  /** A single f32 uniform of 5 elements is an array<vec4<f32>, 2>: at offset
      0, and the buffer is 32 bytes. */
  lemma LayoutExample()
    ensures var us := [UniformVariable("shape", UniformDataType.Float32, 5)];
            Layout(us).0 == [ProgramUniformInfo(UniformDataType.Float32, 0, 5)] && UniformTotalSize(us) == 32
  {
    var us := [UniformVariable("shape", UniformDataType.Float32, 5)];
    assert us[..0] == [];
    assert ConsumedSize(UniformDataType.Float32, 5) == 32;
    assert Wgsl.RoundUp(32, 16) == 32;
  }

  /** One more uniform extends the layout by its placement. */
  lemma LayoutSnoc(us: seq<UniformVariable>, i: nat)
    requires LayoutDefined(us) && i < |us|
    ensures Layout(us[..i + 1]) == (Layout(us[..i]).0 + [Place(Layout(us[..i]).1, us[i]).0], Place(Layout(us[..i]).1, us[i]).1)
  {
    assert us[..i + 1][..i] == us[..i];
  }

  /** The body of the artifact's layout loop: the source's alignment, packing
      and division formulas place the uniform as `Place` does. */
  method PlaceUniform(currentOffset: nat, u: UniformVariable) returns (info: ProgramUniformInfo, next: nat)
    requires u.length >= 1
    ensures (info, next) == Place(currentOffset, u)
  {
    var isF16 := u.dataType == UniformDataType.Float16;
    var length := u.length;
    var elementSize := UniformDataTypeSizes[UniformOrdinal(u.dataType)];
    var baseAlignment := if isF16 then (if length > 4 then 16 else if length > 2 then 8 else length * elementSize)
                         else (if length > 2 then 16 else length * elementSize);
    var structSize := if isF16 && length <= 4 then length * elementSize else 16;
    assert baseAlignment == BaseAlignment(u.dataType, length) > 0;
    assert structSize == StructSize(u.dataType, length);
    Wgsl.RoundUpFormula(currentOffset, baseAlignment);
    next := (currentOffset + baseAlignment - 1) / baseAlignment * baseAlignment;
    info := ProgramUniformInfo(u.dataType, next, length);
    var elementPerStruct := if isF16 then 8 else 4;
    next := next + if length > 4 then (length + elementPerStruct - 1) / elementPerStruct * structSize else length * elementSize;
  }

  /** ProgramArtifact: a built program, with its uniform layout. */
  class ProgramArtifact {
    const name: string
    const computePipeline: ComputePipeline
    const uniforms: seq<ProgramUniformInfo>
    const uniformTotalSize: nat

    constructor (program: Program, computePipeline: ComputePipeline)
      requires LayoutDefined(program.uniformVariables)
      ensures name == program.name && this.computePipeline == computePipeline
      ensures uniforms == Layout(program.uniformVariables).0
      ensures uniformTotalSize == UniformTotalSize(program.uniformVariables)
    {
      var us := program.uniformVariables;
      var infos: seq<ProgramUniformInfo> := [];
      var currentOffset: nat := 0;
      var i := 0;
      while i < |us|
        invariant 0 <= i <= |us|
        invariant (infos, currentOffset) == Layout(us[..i])
      {
        LayoutSnoc(us, i);
        var info;
        info, currentOffset := PlaceUniform(currentOffset, us[i]);
        infos := infos + [info];
        i := i + 1;
      }
      assert us[..i] == us;
      var maxAlignmentOfField := 16;
      Wgsl.RoundUpFormula(currentOffset, maxAlignmentOfField);
      name := program.name;
      this.computePipeline := computePipeline;
      uniforms := infos;
      uniformTotalSize := (currentOffset + maxAlignmentOfField - 1) / maxAlignmentOfField * maxAlignmentOfField;
    }
  }

  // ---------------------------------------------------------------------
  // Dispatch normalisation

  function Pow(b: nat, e: nat): nat
    decreases e
  {
    if e == 0 then 1 else b * Pow(b, e - 1)
  }

  lemma MulMonotone(a: nat, x: nat, b: nat, y: nat)
    requires a <= b && x <= y
    ensures a * x <= b * y
  {
    assert a * x <= b * x;
    assert b * x <= b * y;
  }

  lemma {:induction false} PowMonotone(a: nat, b: nat, e: nat)
    requires a <= b
    ensures Pow(a, e) <= Pow(b, e)
    decreases e
  {
    if e > 0 {
      PowMonotone(a, b, e - 1);
      MulMonotone(a, Pow(a, e - 1), b, Pow(b, e - 1));
    }
  }

  lemma {:induction false} PowAtLeastBase(b: nat, e: nat)
    requires b >= 1 && e >= 1
    ensures Pow(b, e) >= b
    decreases e
  {
    if e > 1 {
      PowAtLeastBase(b, e - 1);
      MulMonotone(b, 1, b, Pow(b, e - 1));
    }
  }

  /** `s` is the ceiling of the k-th root of `p`: the least number whose k-th power reaches `p`. */
  predicate IsCeilRoot(s: nat, p: nat, k: nat) {
    Pow(s, k) >= p && (s == 0 || Pow(s - 1, k) < p)
  }

  /** Bisection between a number whose power is below `p` and one whose power reaches it. */
  function CeilRootSearch(p: nat, k: nat, lo: nat, hi: nat): (s: nat)
    requires lo < hi && Pow(lo, k) < p <= Pow(hi, k)
    ensures IsCeilRoot(s, p, k) && lo < s <= hi
    decreases hi - lo
  {
    if lo + 1 == hi then hi
    else
      var mid := (lo + hi) / 2;
      if Pow(mid, k) < p then CeilRootSearch(p, k, mid, hi) else CeilRootSearch(p, k, lo, mid)
  }

  /** ceil of the k-th root of `p`, on exact integers. */
  function CeilRoot(p: nat, k: nat): (s: nat)
    requires k >= 1
    ensures IsCeilRoot(s, p, k)
  {
    if p == 0 then 0
    else
      PowAtLeastBase(p, k);
      CeilRootSearch(p, k, 0, p)
  }

  /** There is only one ceiling root. */
  lemma CeilRootUnique(s: nat, t: nat, p: nat, k: nat)
    requires IsCeilRoot(s, p, k) && IsCeilRoot(t, p, k)
    ensures s == t
  {
    if s < t {
      PowMonotone(s, t - 1, k);
    }
    if t < s {
      PowMonotone(t, s - 1, k);
    }
  }

  function CeilSqrt(p: nat): nat {
    CeilRoot(p, 2)
  }

  function CeilCbrt(p: nat): nat {
    CeilRoot(p, 3)
  }

  function Volume(d: Dim3): nat {
    d.x * d.y * d.z
  }

  predicate WithinLimit(d: Dim3, limit: nat) {
    d.x <= limit && d.y <= limit && d.z <= limit
  }

  lemma VolumeWithinLimit(d: Dim3, limit: nat)
    requires WithinLimit(d, limit)
    ensures Volume(d) <= Pow(limit, 3)
  {
    MulMonotone(d.x, d.y, limit, limit);
    MulMonotone(d.x * d.y, d.z, limit * limit, limit);
  }

  /** The outcome of normalisation when the dispatch fits: as in the source, or the error it throws. */
  function Normalize(dispatch: Dim3, limit: UInt32): (r: Result<Dim3>)
    ensures WithinLimit(dispatch, limit) ==> r == Ok(dispatch)
    ensures r.Err? ==> !WithinLimit(dispatch, limit)
    ensures r.Ok? && limit >= 1 ==> WithinLimit(r.value, limit)
    ensures r.Ok? && !WithinLimit(dispatch, limit) ==> r.value.x == r.value.y && (r.value.z == 1 || r.value.z == r.value.x)
  {
    if WithinLimit(dispatch, limit) then Ok(dispatch)
    else
      var size := Volume(dispatch);
      var s := CeilSqrt(size);
      if s >= UInt32Modulus then Err(IntegerOverflow)
      else if s > limit then
        var c := CeilCbrt(size);
        if c > limit then Err(DispatchGroupSizeExceedsLimit) else Ok(Dim3(c, c, c))
      else Ok(Dim3(s, s, 1))
  }

  lemma PowSquare(s: nat)
    ensures Pow(s, 2) == s * s
  {
    assert Pow(s, 1) == s;
  }

  lemma PowCube(c: nat)
    ensures Pow(c, 3) == c * c * c
  {
    PowSquare(c);
    assert Pow(c, 3) == c * (c * c);
  }

  /** When no dimension may exceed `limit` and the ceiling cube root does, no
      grid within the limit holds `size` workgroups. */
  lemma NoGridFits(size: nat, c: nat, limit: nat)
    requires IsCeilRoot(c, size, 3) && c > limit
    ensures forall d: Dim3 :: WithinLimit(d, limit) ==> Volume(d) < size
  {
    PowMonotone(limit, c - 1, 3);
    forall d: Dim3 | WithinLimit(d, limit) ensures Volume(d) < size {
      VolumeWithinLimit(d, limit);
    }
  }

  /** The cube is chosen only when the square does not fit, so it is not also
      the ceiling square root. */
  lemma CubeIsNotSquare(size: nat, s: nat, c: nat, limit: nat)
    requires IsCeilRoot(s, size, 2) && IsCeilRoot(c, size, 3) && s > limit && c <= limit
    ensures !IsCeilRoot(c, size, 2)
  {
    if IsCeilRoot(c, size, 2) {
      CeilRootUnique(c, s, size, 2);
    }
  }

  /** Normalisation keeps a dispatch that fits; otherwise it chooses the
      smallest square grid, or failing that the smallest cube, that covers
      every workgroup of the dispatch within the per-dimension limit. It fails
      only when the square root does not fit in 32 bits or no grid within the
      limit has enough workgroups. */
  lemma NormalizeIsCorrect(dispatch: Dim3, limit: UInt32)
    ensures WithinLimit(dispatch, limit) ==> Normalize(dispatch, limit) == Ok(dispatch)
    ensures Normalize(dispatch, limit).Ok? && limit >= 1 ==> WithinLimit(Normalize(dispatch, limit).value, limit)
    ensures Normalize(dispatch, limit).Ok? ==> Volume(Normalize(dispatch, limit).value) >= Volume(dispatch)
    ensures Normalize(dispatch, limit).Ok? && !WithinLimit(dispatch, limit) ==>
              var r := Normalize(dispatch, limit).value;
              (r.z == 1 && r.x == r.y && IsCeilRoot(r.x, Volume(dispatch), 2))
              || (r.x == r.y == r.z && IsCeilRoot(r.x, Volume(dispatch), 3) && !IsCeilRoot(r.x, Volume(dispatch), 2))
    ensures Normalize(dispatch, limit) == Err(IntegerOverflow) <==>
              !WithinLimit(dispatch, limit) && CeilSqrt(Volume(dispatch)) >= UInt32Modulus
    ensures Normalize(dispatch, limit) == Err(DispatchGroupSizeExceedsLimit) ==>
              forall d: Dim3 :: WithinLimit(d, limit) ==> Volume(d) < Volume(dispatch)
  {
    var size := Volume(dispatch);
    if !WithinLimit(dispatch, limit) {
      var s := CeilSqrt(size);
      if s < UInt32Modulus && s > limit {
        var c := CeilCbrt(size);
        if c > limit {
          NoGridFits(size, c, limit);
        } else {
          PowCube(c);
          CubeIsNotSquare(size, s, c, limit);
        }
      } else if s < UInt32Modulus {
        PowSquare(s);
      }
    }
  }

  /** A dispatch of 100000 workgroups in x becomes a 317 x 317 grid. */
  lemma NormalizeSquareExample()
    ensures Normalize(Dim3(100000, 1, 1), 65535) == Ok(Dim3(317, 317, 1))
  {
    assert IsCeilRoot(317, 100000, 2);
    CeilRootUnique(CeilSqrt(100000), 317, 100000, 2);
  }

  /** One of 100000 x 100000 workgroups, whose square root 100000 is over the
      limit, becomes a 2155 x 2155 x 2155 cube. */
  lemma NormalizeCubeExample()
    ensures Normalize(Dim3(100000, 100000, 1), 65535) == Ok(Dim3(2155, 2155, 2155))
  {
    var size := 10000000000;
    assert Volume(Dim3(100000, 100000, 1)) == size;
    PowSquare(100000);
    PowSquare(99999);
    CeilRootUnique(CeilSqrt(size), 100000, size, 2);
    PowCube(2155);
    PowCube(2154);
    assert 2155 * 2155 * 2155 == 10007873875;
    assert 2154 * 2154 * 2154 == 9993948264;
    CeilRootUnique(CeilCbrt(size), 2155, size, 3);
  }

  // ---------------------------------------------------------------------
  // The cache

  /** The cache after inserting `a` under `key`: an existing entry is kept. */
  function Stored(programs: map<string, ProgramArtifact>, key: string, a: ProgramArtifact): map<string, ProgramArtifact> {
    if key in programs then programs else programs[key := a]
  }

  /** Inserting keeps the first artifact stored under a key, adds the key
      otherwise, and leaves every other key as it was; inserting again under
      the same key changes nothing. */
  lemma StoredIsFirstWriterWins(programs: map<string, ProgramArtifact>, key: string, a: ProgramArtifact, b: ProgramArtifact)
    ensures key in Stored(programs, key, a)
    ensures Stored(programs, key, a)[key] == if key in programs then programs[key] else a
    ensures forall k :: k != key ==> (k in Stored(programs, key, a) <==> k in programs)
    ensures forall k :: k != key && k in programs ==> Stored(programs, key, a)[k] == programs[k]
    ensures Stored(Stored(programs, key, a), key, b) == Stored(programs, key, a)
  {
  }

  class ProgramManager {
    var programs: map<string, ProgramArtifact>
    const device: Device
    const limits: Limits

    constructor (device: Device, limits: Limits)
      ensures programs == map[] && this.device == device && this.limits == limits
    {
      programs := map[];
      this.device := device;
      this.limits := limits;
    }

    /** NormalizeDispatchGroupSize, against this device's per-dimension workgroup limit. */
    function NormalizeDispatchGroupSize(dispatch: Dim3): (r: Result<Dim3>)
      ensures r.Ok? && limits.maxComputeWorkgroupsPerDimension >= 1 ==> WithinLimit(r.value, limits.maxComputeWorkgroupsPerDimension)
      ensures r.Ok? ==> Volume(r.value) >= Volume(dispatch)
      ensures WithinLimit(dispatch, limits.maxComputeWorkgroupsPerDimension) ==> r == Ok(dispatch)
    {
      NormalizeIsCorrect(dispatch, limits.maxComputeWorkgroupsPerDimension);
      Normalize(dispatch, limits.maxComputeWorkgroupsPerDimension)
    }

    /** Get: the artifact cached under `key`, if any. */
    method Get(key: string) returns (r: Option<ProgramArtifact>)
      ensures r.Some? <==> key in programs
      ensures r.Some? ==> r.value == programs[key]
    {
      if key in programs {
        return Some(programs[key]);
      }
      return None;
    }

    /** Set: caches `a` under `key` unless an artifact is already there, and
        returns the artifact the cache holds for `key`. */
    method Set(key: string, a: ProgramArtifact) returns (r: ProgramArtifact)
      modifies this`programs
      ensures programs == Stored(old(programs), key, a)
      ensures r == programs[key]
      ensures r == if key in old(programs) then old(programs)[key] else a
    {
      programs := Stored(programs, key, a);
      r := programs[key];
    }
  }
}
