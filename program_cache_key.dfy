/** The program cache key (program_cache_key.cc): the text that decides whether
    two programs may share one compiled pipeline. Its format is

      <name>[<hint>]:<is 1-D dispatch>:<uniform lengths, "|"-separated>:<input facts, "|"-separated>

    and an input's facts are `<element type or empty>;<rank, or shape, or empty>`,
    as its dependency flags select. */
module CacheKeys {
  import opened Text
  import opened Outcomes
  import opened Programs

  /** TensorShape::ToString: the dimensions in braces, separated by commas. */
  function ShapeToString(dims: seq<nat>): string {
    "{" + Join(",", DecAll(dims)) + "}"
  }

  function DecAll(ns: seq<nat>): seq<string> {
    seq(|ns|, i requires 0 <= i < |ns| => Dec(ns[i]))
  }

  /** A uniform's entry: its length in decimal, or nothing when the length is 0. */
  function UniformEntry(u: UniformVariable): string {
    if u.length > 0 then Dec(u.length) else ""
  }

  function UniformEntries(us: seq<UniformVariable>): seq<string> {
    seq(|us|, i requires 0 <= i < |us| => UniformEntry(us[i]))
  }

  /** The element type code, when the input depends on its type. */
  function TypeText(input: ProgramInput): string {
    if HasFlag(input.dependency, TypeDependency) then Dec(input.tensor.elementType) else ""
  }

  /** The rank when the input depends on it; otherwise the shape when it depends on that. */
  function ShapeText(input: ProgramInput): string {
    if HasFlag(input.dependency, RankDependency) then Dec(input.tensor.Rank())
    else if HasFlag(input.dependency, ShapeDependency) then ShapeToString(input.tensor.shape)
    else ""
  }

  function InputEntry(input: ProgramInput): string {
    TypeText(input) + ";" + ShapeText(input)
  }

  function InputEntries(inputs: seq<ProgramInput>): seq<string> {
    seq(|inputs|, i requires 0 <= i < |inputs| => InputEntry(inputs[i]))
  }

  /** The name, followed by the hint in brackets when the hint is not empty. */
  function KeyPrefix(name: string, hint: string): string {
    name + (if hint == "" then "" else "[" + hint + "]")
  }

  /** A bool streamed without boolalpha. */
  function FlagText(b: bool): string {
    if b then "1" else "0"
  }

  /** The key of a program with these parts. */
  function ProgramCacheKey(name: string, hint: string, is1DDispatch: bool,
                           uniforms: seq<UniformVariable>, inputs: seq<ProgramInput>): string {
    KeyPrefix(name, hint) + ":" + FlagText(is1DDispatch) + ":"
      + Join("|", UniformEntries(uniforms)) + ":" + Join("|", InputEntries(inputs))
  }

  /** The body of the input loop: the type when selected, ";", then the rank or the shape when selected. */
  method StreamInputEntry(ss: string, input: ProgramInput) returns (r: string)
    ensures r == ss + InputEntry(input)
  {
    r := ss;
    if HasFlag(input.dependency, TypeDependency) {
      r := r + Dec(input.tensor.elementType);
    }
    assert r == ss + TypeText(input);
    r := r + ";";
    if HasFlag(input.dependency, RankDependency) {
      r := r + Dec(|input.tensor.shape|);
    } else if HasFlag(input.dependency, ShapeDependency) {
      r := r + ShapeToString(input.tensor.shape);
    }
    assert r == ss + TypeText(input) + ";" + ShapeText(input);
    AppendPieces(ss, TypeText(input), ";", ShapeText(input));
  }

  lemma UniformEntriesStep(us: seq<UniformVariable>, i: nat)
    requires i < |us|
    ensures UniformEntries(us[..i + 1]) == UniformEntries(us[..i]) + [UniformEntry(us[i])]
  {
  }

  lemma InputEntriesStep(ins: seq<ProgramInput>, i: nat)
    requires i < |ins|
    ensures InputEntries(ins[..i + 1]) == InputEntries(ins[..i]) + [InputEntry(ins[i])]
  {
  }

  /** The uniform loop: each uniform's entry, with "|" before every entry but the first. */
  method WriteUniformEntries(ss: string, uniforms: seq<UniformVariable>) returns (r: string)
    ensures r == ss + Join("|", UniformEntries(uniforms))
  {
    r := ss;
    var first := true;
    var i := 0;
    while i < |uniforms|
      invariant 0 <= i <= |uniforms|
      invariant first <==> i == 0
      invariant r == ss + Join("|", UniformEntries(uniforms[..i]))
    {
      ghost var done := UniformEntries(uniforms[..i]);
      UniformEntriesStep(uniforms, i);
      JoinStep(ss, "|", done, UniformEntry(uniforms[i]));
      ghost var before := if first then r else r + "|";
      if first {
        first := false;
      } else {
        r := r + "|";
      }
      if uniforms[i].length > 0 {
        r := r + Dec(uniforms[i].length);
      }
      assert r == before + UniformEntry(uniforms[i]);
      i := i + 1;
    }
    assert uniforms[..i] == uniforms;
  }

  /** The input loop: each input's entry, with "|" before every entry but the first. */
  method WriteInputEntries(ss: string, inputs: seq<ProgramInput>) returns (r: string)
    ensures r == ss + Join("|", InputEntries(inputs))
  {
    r := ss;
    var first := true;
    var i := 0;
    while i < |inputs|
      invariant 0 <= i <= |inputs|
      invariant first <==> i == 0
      invariant r == ss + Join("|", InputEntries(inputs[..i]))
    {
      ghost var done := InputEntries(inputs[..i]);
      InputEntriesStep(inputs, i);
      JoinStep(ss, "|", done, InputEntry(inputs[i]));
      if first {
        first := false;
      } else {
        r := r + "|";
      }
      r := StreamInputEntry(r, inputs[i]);
      i := i + 1;
    }
    assert inputs[..i] == inputs;
  }

  /** CalculateProgramCacheKey: streams the name and hint, the 1-D flag, then
      the uniform and input lists, each with a `first` flag. */
  method CalculateProgramCacheKey(program: Program, is1DDispatch: bool) returns (key: string)
    ensures key == ProgramCacheKey(program.name, program.cacheHint, is1DDispatch,
                                   program.uniformVariables, program.inputs)
  {
    var ss := program.name;
    if program.cacheHint != "" {
      ss := ss + "[" + program.cacheHint + "]";
    }
    assert ss == KeyPrefix(program.name, program.cacheHint);
    ss := ss + ":" + (if is1DDispatch then "1" else "0") + ":";
    ss := WriteUniformEntries(ss, program.uniformVariables);
    ss := ss + ":";
    key := WriteInputEntries(ss, program.inputs);
  }

  // ---------------------------------------------------------------------
  // What the key captures

  /** The facts about one input that its dependency flags select. */
  datatype ShapeFact = NoShapeFact | RankFact(rank: nat) | DimsFact(dims: seq<nat>)
  datatype InputFacts = InputFacts(elementType: Option<nat>, shape: ShapeFact)

  function FactsOf(input: ProgramInput): InputFacts {
    InputFacts(
      if HasFlag(input.dependency, TypeDependency) then Some(input.tensor.elementType) else None,
      if HasFlag(input.dependency, RankDependency) then RankFact(input.tensor.Rank())
      else if HasFlag(input.dependency, ShapeDependency) then DimsFact(input.tensor.shape)
      else NoShapeFact)
  }

  function AllFacts(inputs: seq<ProgramInput>): seq<InputFacts> {
    seq(|inputs|, i requires 0 <= i < |inputs| => FactsOf(inputs[i]))
  }

  function Lengths(uniforms: seq<UniformVariable>): seq<nat> {
    seq(|uniforms|, i requires 0 <= i < |uniforms| => uniforms[i].length)
  }

  lemma DigitsAvoid(s: string, c: char)
    requires IsDigits(s) && !('0' <= c <= '9')
    ensures c !in s
  {
  }

  /** Shape texts are free of the separators used around them. */
  lemma ShapeToStringAvoids(dims: seq<nat>, c: char)
    requires c == ';' || c == '|' || c == ':'
    ensures c !in ShapeToString(dims)
  {
    forall i | 0 <= i < |DecAll(dims)| ensures c !in DecAll(dims)[i] {
      DigitsAvoid(Dec(dims[i]), c);
    }
    JoinAvoids(c, ",", DecAll(dims));
  }

  /** Two shapes print the same only if they are equal. */
  lemma ShapeToStringInjective(a: seq<nat>, b: seq<nat>)
    requires ShapeToString(a) == ShapeToString(b)
    ensures a == b
  {
    var ja, jb := Join(",", DecAll(a)), Join(",", DecAll(b));
    assert ja == ShapeToString(a)[1..|ShapeToString(a)| - 1];
    assert jb == ShapeToString(b)[1..|ShapeToString(b)| - 1];
    if |a| > 0 {
      JoinEndsWithLast(",", DecAll(a));
    }
    if |b| > 0 {
      JoinEndsWithLast(",", DecAll(b));
    }
    if |a| > 0 && |b| > 0 {
      forall i | 0 <= i < |a| ensures ',' !in DecAll(a)[i] {
        DigitsAvoid(Dec(a[i]), ',');
      }
      forall i | 0 <= i < |b| ensures ',' !in DecAll(b)[i] {
        DigitsAvoid(Dec(b[i]), ',');
      }
      JoinInjective(',', DecAll(a), DecAll(b));
      forall i | 0 <= i < |a| ensures a[i] == b[i] {
        assert DecAll(a)[i] == DecAll(b)[i];
        DecInjective(a[i], b[i]);
      }
    }
  }

  lemma InputEntryAvoids(input: ProgramInput, c: char)
    requires c == '|' || c == ':'
    ensures c !in InputEntry(input)
  {
    if HasFlag(input.dependency, TypeDependency) {
      DigitsAvoid(Dec(input.tensor.elementType), c);
    }
    if HasFlag(input.dependency, RankDependency) {
      DigitsAvoid(Dec(input.tensor.Rank()), c);
    } else if HasFlag(input.dependency, ShapeDependency) {
      ShapeToStringAvoids(input.tensor.shape, c);
    }
  }

  lemma UniformEntryAvoids(u: UniformVariable, c: char)
    requires c == '|' || c == ':'
    ensures c !in UniformEntry(u)
  {
    if u.length > 0 {
      DigitsAvoid(Dec(u.length), c);
    }
  }

  function FactKind(f: ShapeFact): nat {
    match f
    case NoShapeFact => 0
    case RankFact(_) => 1
    case DimsFact(_) => 2
  }

  /** Which kind of shape text this is: empty, a shape in braces, or a rank in digits. */
  function TextKind(s: string): nat {
    if s == "" then 0 else if s[0] == '{' then 2 else 1
  }

  /** The shape text shows which kind of fact it renders. */
  lemma ShapeTextKind(input: ProgramInput)
    ensures TextKind(ShapeText(input)) == FactKind(FactsOf(input).shape)
  {
    if HasFlag(input.dependency, RankDependency) {
      var d := Dec(input.tensor.Rank());
      assert '0' <= d[0] <= '9';
    }
  }

  /** An input's entry determines exactly the facts its flags select: two inputs
      have the same entry if and only if they have the same selected facts. */
  lemma InputEntryEncodesFacts(a: ProgramInput, b: ProgramInput)
    ensures InputEntry(a) == InputEntry(b) <==> FactsOf(a) == FactsOf(b)
  {
    if InputEntry(a) == InputEntry(b) {
      if HasFlag(a.dependency, TypeDependency) {
        DigitsAvoid(Dec(a.tensor.elementType), ';');
      }
      if HasFlag(b.dependency, TypeDependency) {
        DigitsAvoid(Dec(b.tensor.elementType), ';');
      }
      SplitAtFirst(';', TypeText(a), ShapeText(a), TypeText(b), ShapeText(b));
      if TypeText(a) != "" && TypeText(b) != "" {
        DecInjective(a.tensor.elementType, b.tensor.elementType);
      }
      ShapeTextKind(a);
      ShapeTextKind(b);
      if FactsOf(a).shape.RankFact? && FactsOf(b).shape.RankFact? {
        DecInjective(a.tensor.Rank(), b.tensor.Rank());
      } else if FactsOf(a).shape.DimsFact? && FactsOf(b).shape.DimsFact? {
        ShapeToStringInjective(a.tensor.shape, b.tensor.shape);
      }
    }
  }

  /** The uniform entry determines the length. */
  lemma UniformEntryInjective(a: UniformVariable, b: UniformVariable)
    requires UniformEntry(a) == UniformEntry(b)
    ensures a.length == b.length
  {
    if a.length > 0 && b.length > 0 {
      DecInjective(a.length, b.length);
    }
  }

  /** The key depends on no more than the dispatch flag, the uniform lengths and
      the selected input facts (besides name and hint): programs that agree on
      these share a key, whatever their dispatch size, outputs or other tensor facts. */
  lemma {:induction false} KeyDependsOnlyOnFacts(name: string, hint: string,
      is1D: bool, us: seq<UniformVariable>, ins: seq<ProgramInput>,
      us': seq<UniformVariable>, ins': seq<ProgramInput>)
    requires Lengths(us) == Lengths(us')
    requires AllFacts(ins) == AllFacts(ins')
    ensures ProgramCacheKey(name, hint, is1D, us, ins) == ProgramCacheKey(name, hint, is1D, us', ins')
  {
    assert |us| == |Lengths(us)| && |ins| == |AllFacts(ins)|;
    forall i | 0 <= i < |us| ensures UniformEntries(us)[i] == UniformEntries(us')[i] {
      assert Lengths(us)[i] == Lengths(us')[i];
    }
    assert UniformEntries(us) == UniformEntries(us');
    forall i | 0 <= i < |ins| ensures InputEntries(ins)[i] == InputEntries(ins')[i] {
      assert AllFacts(ins)[i] == AllFacts(ins')[i];
      InputEntryEncodesFacts(ins[i], ins'[i]);
    }
    assert InputEntries(ins) == InputEntries(ins');
  }

  /** Conversely, equal keys mean equal name-and-hint prefixes, equal dispatch
      flags and equal selected input facts; and, when both programs have at least
      one uniform, equal uniform lengths. */
  lemma KeyDeterminesFacts(name: string, hint: string, is1D: bool,
      us: seq<UniformVariable>, ins: seq<ProgramInput>,
      name': string, hint': string, is1D': bool,
      us': seq<UniformVariable>, ins': seq<ProgramInput>)
    requires ProgramCacheKey(name, hint, is1D, us, ins) == ProgramCacheKey(name', hint', is1D', us', ins')
    ensures KeyPrefix(name, hint) == KeyPrefix(name', hint')
    ensures is1D == is1D'
    ensures AllFacts(ins) == AllFacts(ins')
    ensures |us| > 0 && |us'| > 0 ==> Lengths(us) == Lengths(us')
  {
    var p, p' := KeyPrefix(name, hint), KeyPrefix(name', hint');
    var f, f' := FlagText(is1D), FlagText(is1D');
    var ue, ue' := UniformEntries(us), UniformEntries(us');
    var ie, ie' := InputEntries(ins), InputEntries(ins');
    var u, u' := Join("|", ue), Join("|", ue');
    var n, n' := Join("|", ie), Join("|", ie');
    forall i | 0 <= i < |ue| ensures '|' !in ue[i] && ':' !in ue[i] {
      UniformEntryAvoids(us[i], '|');
      UniformEntryAvoids(us[i], ':');
    }
    forall i | 0 <= i < |ue'| ensures '|' !in ue'[i] && ':' !in ue'[i] {
      UniformEntryAvoids(us'[i], '|');
      UniformEntryAvoids(us'[i], ':');
    }
    forall i | 0 <= i < |ie| ensures '|' !in ie[i] && ':' !in ie[i] {
      InputEntryAvoids(ins[i], '|');
      InputEntryAvoids(ins[i], ':');
    }
    forall i | 0 <= i < |ie'| ensures '|' !in ie'[i] && ':' !in ie'[i] {
      InputEntryAvoids(ins'[i], '|');
      InputEntryAvoids(ins'[i], ':');
    }
    JoinAvoids(':', "|", ue);
    JoinAvoids(':', "|", ue');
    JoinAvoids(':', "|", ie);
    JoinAvoids(':', "|", ie');
    SplitAtLast(':', p + ":" + f + ":" + u, n, p' + ":" + f' + ":" + u', n');
    SplitAtLast(':', p + ":" + f, u, p' + ":" + f', u');
    assert |p| == |p'|;
    assert p == (p + ":" + f)[..|p|];
    assert p' == (p' + ":" + f')[..|p'|];
    assert f[0] == (p + ":" + f)[|p| + 1];

    // Inputs: an empty list joins to "", a non-empty one to a text holding ';'.
    if |ie| > 0 {
      JoinEndsWithLast("|", ie);
    }
    if |ie'| > 0 {
      JoinEndsWithLast("|", ie');
    }
    if |ie| > 0 && |ie'| > 0 {
      JoinInjective('|', ie, ie');
      forall i | 0 <= i < |ins| ensures AllFacts(ins)[i] == AllFacts(ins')[i] {
        assert ie[i] == ie'[i];
        InputEntryEncodesFacts(ins[i], ins'[i]);
      }
    }
    if |us| > 0 && |us'| > 0 {
      JoinInjective('|', ue, ue');
      forall i | 0 <= i < |us| ensures Lengths(us)[i] == Lengths(us')[i] {
        assert ue[i] == ue'[i];
        UniformEntryInjective(us[i], us'[i]);
      }
    }
  }

  /** The one case the key cannot tell apart: no uniforms at all and a single
      uniform of length 0 both leave the uniform part empty. */
  lemma NoUniformsCollideWithEmptyUniform(name: string, hint: string, is1D: bool,
      u: UniformVariable, ins: seq<ProgramInput>)
    requires u.length == 0
    ensures ProgramCacheKey(name, hint, is1D, [], ins) == ProgramCacheKey(name, hint, is1D, [u], ins)
    ensures Lengths([]) != Lengths([u])
  {
    assert UniformEntries([u]) == [""];
    assert Lengths([u]) == [0];
  }
}
