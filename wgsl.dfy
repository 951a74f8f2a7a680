/** The parts of the WebGPU Shading Language that the generated shaders rely on,
    written as reference definitions: the alignment and size rules for values in
    the uniform address space (section 14.4, "Memory Layout", of the WGSL
    specification) and the compute built-in values of section 13.3.1
    ("Built-in Values"), from which the shader's `global_idx` is computed. */
module Wgsl {
  import opened Text

  // ---------------------------------------------------------------------
  // Types, alignment and size

  datatype ScalarType = F32 | F16 | U32 | I32

  function ScalarName(s: ScalarType): string {
    match s
    case F32 => "f32"
    case F16 => "f16"
    case U32 => "u32"
    case I32 => "i32"
  }

  function ScalarSize(s: ScalarType): nat {
    if s == F16 then 2 else 4
  }

  /** The WGSL types a uniform field can take. */
  datatype WgslType =
    | Scalar(scalar: ScalarType)
    | Vector(width: nat, scalar: ScalarType)
    | Matrix(columns: nat, rows: nat, scalar: ScalarType)
    | Array(element: WgslType, count: nat)

  predicate WellFormed(t: WgslType) {
    match t
    case Scalar(_) => true
    case Vector(n, _) => 2 <= n <= 4
    case Matrix(c, r, _) => 2 <= c <= 4 && 2 <= r <= 4
    case Array(e, n) => n >= 1 && WellFormed(e)
  }

  /** roundUp(k, n): the least multiple of `k` that is at least `n`. */
  function RoundUp(n: nat, k: nat): nat
    requires k > 0
    decreases n
  {
    if n == 0 then 0 else if n <= k then k else k + RoundUp(n - k, k)
  }

  lemma MulAtLeast(d: int, k: int)
    requires k > 0 && d >= 1
    ensures d * k >= k
  {
  }

  /** Euclidean division is unique: a quotient and a remainder below the divisor are the quotient and the remainder. */
  lemma DivModUnique(x: int, k: int, q: int, m: int)
    requires k > 0 && 0 <= m < k && x == q * k + m
    ensures x / k == q && x % k == m
  {
    var q', m' := x / k, x % k;
    assert (q - q') * k == m' - m;
    var d := q - q';
    if d >= 1 {
      MulAtLeast(d, k);
    }
    if -d >= 1 {
      MulAtLeast(-d, k);
    }
  }

  /** roundUp gives a multiple of `k` that is at least `n` and less than `k` above it. */
  lemma {:induction false} RoundUpIsLeastMultiple(n: nat, k: nat)
    requires k > 0
    ensures RoundUp(n, k) % k == 0 && n <= RoundUp(n, k) < n + k
    decreases n
  {
    if n == 0 {
    } else if n <= k {
      DivModUnique(k, k, 1, 0);
    } else {
      var r := RoundUp(n - k, k);
      RoundUpIsLeastMultiple(n - k, k);
      var q := r / k;
      assert r == q * k;
      assert k + r == (q + 1) * k;
      DivModUnique(k + r, k, q + 1, 0);
    }
  }

  /** Two multiples of `k` less than `k` apart are equal. */
  lemma MultiplesClose(a: nat, b: nat, k: nat)
    requires k > 0 && a % k == 0 && b % k == 0
    requires a < b + k && b < a + k
    ensures a == b
  {
    var qa, qb := a / k, b / k;
    assert a == qa * k && b == qb * k;
    assert (qa - qb) * k == a - b;
    var d := qa - qb;
    if d >= 1 {
      MulAtLeast(d, k);
    }
    if -d >= 1 {
      MulAtLeast(-d, k);
    }
  }

  /** The integer formula `(n + k - 1) / k * k` computes roundUp. */
  lemma RoundUpFormula(n: nat, k: nat)
    requires k > 0
    ensures (n + k - 1) / k * k == RoundUp(n, k)
  {
    var q, r := (n + k - 1) / k, (n + k - 1) % k;
    assert n + k - 1 == q * k + r;
    DivModUnique(q * k, k, q, 0);
    RoundUpIsLeastMultiple(n, k);
    MultiplesClose(q * k, RoundUp(n, k), k);
  }

  /** A quotient is below `c` when the dividend is below `a * c`. */
  lemma QuotientBelow(x: nat, a: nat, c: nat)
    requires a > 0 && x < a * c
    ensures x / a < c
  {
    var q := x / a;
    assert q * a <= x;
    if q >= c {
      MulAtLeast(q - c + 1, a);
    }
  }

  function VectorAlign(n: nat, s: ScalarType): nat {
    (if n == 2 then 2 else 4) * ScalarSize(s)
  }

  /** AlignOf in the uniform address space: an array is aligned to a multiple of 16. */
  function AlignOf(t: WgslType): nat {
    match t
    case Scalar(s) => ScalarSize(s)
    case Vector(n, s) => VectorAlign(n, s)
    case Matrix(_, r, s) => VectorAlign(r, s)
    case Array(e, _) => if AlignOf(e) == 0 then 0 else RoundUp(AlignOf(e), 16)
  }

  function SizeOf(t: WgslType): nat {
    match t
    case Scalar(s) => ScalarSize(s)
    case Vector(n, s) => n * ScalarSize(s)
    case Matrix(c, r, s) => c * RoundUp(r * ScalarSize(s), VectorAlign(r, s))
    case Array(e, n) => if AlignOf(e) == 0 then 0 else n * RoundUp(SizeOf(e), AlignOf(e))
  }

  /** The element stride of an array of `e`. */
  function Stride(e: WgslType): nat
    requires AlignOf(e) > 0
  {
    RoundUp(SizeOf(e), AlignOf(e))
  }

  /** A well-formed type has a positive alignment. */
  lemma {:induction false} AlignPositive(t: WgslType)
    requires WellFormed(t)
    ensures AlignOf(t) > 0
  {
    match t
    case Scalar(_) =>
    case Vector(_, _) =>
    case Matrix(_, _, _) =>
    case Array(e, _) => AlignPositive(e);
  }

  /** An array in the uniform address space is host-shareable only when its element stride is a multiple of 16. */
  predicate UniformStrideOk(t: WgslType) {
    match t
    case Array(e, _) => AlignOf(e) > 0 && Stride(e) % 16 == 0 && UniformStrideOk(e)
    case _ => true
  }

  /** Where a structure's members end: just past the last one. */
  function EndOfMembers(offsets: seq<nat>, ts: seq<WgslType>): nat
    requires |offsets| == |ts|
  {
    if ts == [] then 0 else offsets[|ts| - 1] + SizeOf(ts[|ts| - 1])
  }

  /** OffsetOfMember: the first member at offset 0, every later one at the
      least multiple of its alignment at or after the end of the one before. */
  function MemberOffsets(ts: seq<WgslType>): (r: seq<nat>)
    requires forall i :: 0 <= i < |ts| ==> AlignOf(ts[i]) > 0
    ensures |r| == |ts|
    decreases |ts|
  {
    if ts == [] then []
    else
      var prev := MemberOffsets(ts[..|ts| - 1]);
      prev + [RoundUp(EndOfMembers(prev, ts[..|ts| - 1]), AlignOf(ts[|ts| - 1]))]
  }

  /** The WGSL spelling of a type. */
  function TypeText(t: WgslType): string {
    match t
    case Scalar(s) => ScalarName(s)
    case Vector(n, s) => "vec" + Dec(n) + "<" + ScalarName(s) + ">"
    case Matrix(c, r, s) => "mat" + Dec(c) + "x" + Dec(r) + "<" + ScalarName(s) + ">"
    case Array(e, n) => "array<" + TypeText(e) + ", " + Dec(n) + ">"
  }

  // ---------------------------------------------------------------------
  // Compute built-in values

  /** A triple of unsigned values: an id, a size or a count per dimension. */
  datatype Id3 = Id3(x: nat, y: nat, z: nat)

  function Volume(b: Id3): nat {
    b.x * b.y * b.z
  }

  predicate Below(v: Id3, b: Id3) {
    v.x < b.x && v.y < b.y && v.z < b.z
  }

  predicate Positive(b: Id3) {
    b.x > 0 && b.y > 0 && b.z > 0
  }

  /** One invocation of a dispatch: its workgroup_id and its local_invocation_id. */
  datatype Invocation = Invocation(workgroup: Id3, local: Id3)

  /** The invocations of a dispatch of `groups` workgroups of `size` invocations each. */
  predicate InDispatch(inv: Invocation, size: Id3, groups: Id3) {
    Below(inv.workgroup, groups) && Below(inv.local, size)
  }

  /** global_invocation_id = workgroup_id * workgroup_size + local_invocation_id. */
  function GlobalInvocationId(size: Id3, inv: Invocation): Id3 {
    Id3(inv.workgroup.x * size.x + inv.local.x,
        inv.workgroup.y * size.y + inv.local.y,
        inv.workgroup.z * size.z + inv.local.z)
  }

  /** local_invocation_index, as the specification defines it. */
  function LocalInvocationIndex(size: Id3, inv: Invocation): nat {
    inv.local.z * size.x * size.y + inv.local.y * size.x + inv.local.x
  }

  /** Row-major position of `v` in a box of extent `b`, x fastest. */
  function Linear(v: Id3, b: Id3): nat {
    (v.z * b.y + v.y) * b.x + v.x
  }

  /** The inverse of `Linear`. */
  function Delinear(k: nat, b: Id3): Id3
    requires Positive(b)
  {
    Id3(k % b.x, k / b.x % b.y, k / b.x / b.y)
  }

  /** Two-level mixed radix: `a * n + b` with `b < n` is below `m * n` when `a < m`. */
  lemma ComposeBelow(a: nat, b: nat, m: nat, n: nat)
    requires a < m && b < n
    ensures a * n + b < m * n
  {
    assert a * n + b < a * n + n == (a + 1) * n;
    assert (a + 1) * n <= m * n;
  }

  /** ... and it determines `a` and `b`. */
  lemma ComposeSplits(a: nat, b: nat, n: nat)
    requires b < n
    ensures (a * n + b) / n == a && (a * n + b) % n == b
  {
    DivModUnique(a * n + b, n, a, b);
  }

  /** `Linear` places the points of a box on 0 .. Volume - 1 and `Delinear` reads them back. */
  lemma LinearBijective(v: Id3, b: Id3)
    requires Below(v, b)
    ensures Linear(v, b) < Volume(b)
    ensures Delinear(Linear(v, b), b) == v
  {
    ComposeBelow(v.z, v.y, b.z, b.y);
    ComposeBelow(v.z * b.y + v.y, v.x, b.z * b.y, b.x);
    assert (b.z * b.y) * b.x == Volume(b);
    ComposeSplits(v.z * b.y + v.y, v.x, b.x);
    ComposeSplits(v.z, v.y, b.y);
  }

  lemma DelinearBelow(k: nat, b: Id3)
    requires Positive(b) && k < Volume(b)
    ensures Below(Delinear(k, b), b)
    ensures Linear(Delinear(k, b), b) == k
  {
    var q := k / b.x;
    assert k == q * b.x + k % b.x;
    assert k < b.x * (b.y * b.z);
    QuotientBelow(k, b.x, b.y * b.z);
    QuotientBelow(q, b.y, b.z);
    assert q == q / b.y * b.y + q % b.y;
  }

  /** Distinct points of a box have distinct positions. */
  lemma LinearInjective(v: Id3, w: Id3, b: Id3)
    requires Below(v, b) && Below(w, b)
    requires Linear(v, b) == Linear(w, b)
    ensures v == w
  {
    LinearBijective(v, b);
    LinearBijective(w, b);
  }

  /** local_invocation_index is the row-major position of the local id. */
  lemma LocalIndexIsLinear(size: Id3, inv: Invocation)
    ensures LocalInvocationIndex(size, inv) == Linear(inv.local, size)
  {
    calc {
      Linear(inv.local, size);
      (inv.local.z * size.y + inv.local.y) * size.x + inv.local.x;
      inv.local.z * size.y * size.x + inv.local.y * size.x + inv.local.x;
      { assert inv.local.z * size.y * size.x == inv.local.z * size.x * size.y; }
      LocalInvocationIndex(size, inv);
    }
  }
}
