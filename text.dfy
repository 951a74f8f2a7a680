/** Text building shared by the cache key and the shader generator: decimal
    numbers as a classic-locale ostream prints them, separator joins as the
    source's `first`-flag loops and StringJoin build them, and the facts that
    let a joined text be split back into its parts. */
module Text {

  function Digit(d: nat): (c: char)
    requires d < 10
    ensures '0' <= c <= '9'
  {
    (48 + d) as char
  }

  predicate IsDigits(s: string) {
    forall i :: 0 <= i < |s| ==> '0' <= s[i] <= '9'
  }

  /** The decimal rendering of `n`, most significant digit first, no sign, no padding. */
  function Dec(n: nat): (s: string)
    ensures |s| >= 1
    ensures IsDigits(s)
    ensures n < 10 <==> |s| == 1
    decreases n
  {
    if n < 10 then [Digit(n)] else Dec(n / 10) + [Digit(n % 10)]
  }

  /** Two numbers print the same only if they are equal. */
  lemma {:induction false} DecInjective(a: nat, b: nat)
    requires Dec(a) == Dec(b)
    ensures a == b
    decreases a
  {
    if a >= 10 && b >= 10 {
      var sa, sb := Dec(a), Dec(b);
      assert sa[..|sa| - 1] == Dec(a / 10);
      assert sb[..|sb| - 1] == Dec(b / 10);
      DecInjective(a / 10, b / 10);
      assert Digit(a % 10) == sa[|sa| - 1] == sb[|sb| - 1] == Digit(b % 10);
    } else {
      assert Dec(a)[0] == Dec(b)[0];
    }
  }

  /** `parts` joined with `sep` between neighbours; built from the right, as a
      loop that appends `sep` before every part but the first builds it. */
  function Join(sep: string, parts: seq<string>): string
    decreases |parts|
  {
    if |parts| == 0 then ""
    else if |parts| == 1 then parts[0]
    else Join(sep, parts[..|parts| - 1]) + sep + parts[|parts| - 1]
  }

  /** The loop step: appending one part appends a separator (unless it is the first part) and the part. */
  lemma JoinSnoc(sep: string, parts: seq<string>, p: string)
    ensures Join(sep, parts + [p]) == (if parts == [] then p else Join(sep, parts) + sep + p)
  {
    assert (parts + [p])[..|parts|] == parts;
  }

  /** A character that is neither in the separator nor in any part is not in the joined text. */
  lemma {:induction false} JoinAvoids(c: char, sep: string, parts: seq<string>)
    requires c !in sep
    requires forall i :: 0 <= i < |parts| ==> c !in parts[i]
    ensures c !in Join(sep, parts)
    decreases |parts|
  {
    if |parts| > 1 {
      JoinAvoids(c, sep, parts[..|parts| - 1]);
    }
  }

  /** In `a + [c] + b` with no `c` in `a`, the first `c` sits right after `a`. */
  lemma FirstOccurrence(c: char, a: string, b: string)
    requires c !in a
    ensures (a + [c] + b)[|a|] == c
    ensures forall i :: 0 <= i < |a| ==> (a + [c] + b)[i] != c
  {
    forall i | 0 <= i < |a| ensures (a + [c] + b)[i] != c {
      assert (a + [c] + b)[i] == a[i];
    }
  }

  /** Splitting at the first occurrence of `c`: the part before it holds no `c`. */
  lemma SplitAtFirst(c: char, a: string, b: string, a': string, b': string)
    requires c !in a && c !in a'
    requires a + [c] + b == a' + [c] + b'
    ensures a == a' && b == b'
  {
    var s := a + [c] + b;
    FirstOccurrence(c, a, b);
    FirstOccurrence(c, a', b');
    assert |a| == |a'|;
    assert a == s[..|a|];
    assert a' == (a' + [c] + b')[..|a'|];
    assert b == s[|a| + 1..];
    assert b' == (a' + [c] + b')[|a'| + 1..];
  }

  /** In `a + [c] + b` with no `c` in `b`, the last `c` sits right before `b`. */
  lemma LastOccurrence(c: char, a: string, b: string)
    requires c !in b
    ensures (a + [c] + b)[|a|] == c
    ensures forall i :: |a| < i < |a| + 1 + |b| ==> (a + [c] + b)[i] != c
  {
    forall i | |a| < i < |a| + 1 + |b| ensures (a + [c] + b)[i] != c {
      assert (a + [c] + b)[i] == b[i - |a| - 1];
    }
  }

  /** Splitting at the last occurrence of `c`: the part after it holds no `c`. */
  lemma SplitAtLast(c: char, a: string, b: string, a': string, b': string)
    requires c !in b && c !in b'
    requires a + [c] + b == a' + [c] + b'
    ensures a == a' && b == b'
  {
    var s := a + [c] + b;
    var s' := a' + [c] + b';
    LastOccurrence(c, a, b);
    LastOccurrence(c, a', b');
    assert |a| == |a'|;
    assert a == s[..|a|];
    assert a' == s'[..|a'|];
    assert b == s[|a| + 1..];
    assert b' == s'[|a'| + 1..];
  }

  /** A non-empty list of parts that avoid a one-character separator can be read
      back from its join: the join is injective on such lists. */
  lemma {:induction false} JoinInjective(c: char, xs: seq<string>, ys: seq<string>)
    requires forall i :: 0 <= i < |xs| ==> c !in xs[i]
    requires forall i :: 0 <= i < |ys| ==> c !in ys[i]
    requires |xs| > 0 && |ys| > 0
    requires Join([c], xs) == Join([c], ys)
    ensures xs == ys
    decreases |xs| + |ys|
  {
    var n, m := |xs|, |ys|;
    if n == 1 && m == 1 {
    } else if n == 1 {
      assert false;
    } else if m == 1 {
      assert false;
    } else {
      SplitAtLast(c, Join([c], xs[..n - 1]), xs[n - 1], Join([c], ys[..m - 1]), ys[m - 1]);
      JoinInjective(c, xs[..n - 1], ys[..m - 1]);
      assert xs == xs[..n - 1] + [xs[n - 1]];
      assert ys == ys[..m - 1] + [ys[m - 1]];
    }
  }

  /** A join of a non-empty list ends with its last part, so it is at least that long. */
  lemma JoinEndsWithLast(sep: string, parts: seq<string>)
    requires |parts| > 0
    ensures |Join(sep, parts)| >= |parts[|parts| - 1]|
  {
  }

  /** The step of a loop that streams `parts` with a `first` flag after a head:
      a separator unless this is the first part, then the part. */
  lemma JoinStep(head: string, sep: string, done: seq<string>, p: string)
    ensures (if done == [] then head else head + Join(sep, done) + sep) + p == head + Join(sep, done + [p])
  {
    JoinSnoc(sep, done, p);
    if done == [] {
      assert head + Join(sep, done + [p]) == head + p;
    } else {
      AppendPieces(head, Join(sep, done), sep, p);
    }
  }

  /** Appending a text in pieces appends the whole. */
  lemma AppendPieces(s: string, a: string, b: string, c: string)
    ensures s + a + b + c == s + (a + b + c)
  {
    assert s + a + b + c == s + (a + b + c);
  }

  /** Appending a text in two pieces appends the whole. */
  lemma AppendAssoc(s: string, a: string, b: string)
    ensures s + a + b == s + (a + b)
  {
  }

  /** Appending keeps a prefix. */
  lemma PrefixOfAppend(a: string, b: string, k: nat)
    requires k <= |a|
    ensures |a + b| >= k && (a + b)[..k] == a[..k]
  {
  }

  /** A signed decimal: a minus sign before the magnitude of a negative number. */
  function IntText(i: int): (s: string)
    ensures |s| >= 1
  {
    if i < 0 then "-" + Dec(-i) else Dec(i)
  }

  /** The concatenation of `parts`, as streaming them one after another builds it. */
  function Concat(parts: seq<string>): string
    decreases |parts|
  {
    if parts == [] then "" else Concat(parts[..|parts| - 1]) + parts[|parts| - 1]
  }

  /** Streaming one more part appends it. */
  lemma ConcatSnoc(parts: seq<string>, p: string)
    ensures Concat(parts + [p]) == Concat(parts) + p
  {
    assert (parts + [p])[..|parts|] == parts;
  }

  /** Streaming one part gives that part. */
  lemma ConcatOne(s: string)
    ensures Concat([s]) == s
  {
    assert [s][..0] == [];
  }
}
