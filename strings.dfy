/**
  Go's `strings.Count`, `strings.SplitN`, `strings.Split` and `strings.Join`, for a
  separator of one character. `SplitN` is specified by the shape of its pieces and by
  `Join` undoing it; the two together determine it uniquely.
 */
module Strings {

  /** Number of occurrences of `c` in `s`. */
  function Count(s: string, c: char): (n: nat)
    ensures n <= |s|
    ensures n == 0 <==> c !in s
  {
    if |s| == 0 then 0
    else
      assert c in s <==> s[0] == c || c in s[1..];
      (if s[0] == c then 1 else 0) + Count(s[1..], c)
  }

  /** The pieces joined with `sep` between each pair of neighbours; `""` for no pieces. */
  function Join(parts: seq<string>, sep: char): string
  {
    if |parts| == 0 then ""
    else if |parts| == 1 then parts[0]
    else parts[0] + [sep] + Join(parts[1..], sep)
  }

  /**
    `parts` is a possible result of splitting on `sep` into at most `n` pieces: between
    one and `n` pieces, no piece but the last holds `sep`, and the last holds none
    either unless the limit `n` was reached (it is then the unsplit remainder).
   */
  predicate SplitShape(parts: seq<string>, sep: char, n: nat)
  {
    && 1 <= |parts| <= n
    && (forall i :: 0 <= i < |parts| - 1 ==> sep !in parts[i])
    && (|parts| < n ==> sep !in parts[|parts| - 1])
  }

  /** Go's `strings.SplitN(s, sep, n)` for `n > 0`. */
  function SplitN(s: string, sep: char, n: nat): (parts: seq<string>)
    requires n > 0
    ensures SplitShape(parts, sep, n)
    ensures Join(parts, sep) == s
    decreases |s|
  {
    if n == 1 then [s]
    else if |s| == 0 then [""]
    else if s[0] == sep then
      var rest := SplitN(s[1..], sep, n - 1);
      assert ([""] + rest)[1..] == rest;
      [""] + rest
    else
      var rest := SplitN(s[1..], sep, n);
      JoinExtendHead([s[0]], rest, sep);
      ExtendHeadShape(s[0], rest, sep, n);
      assert s == [s[0]] + s[1..];
      [[s[0]] + rest[0]] + rest[1..]
  }

  /** Go's `strings.Split(s, sep)`: one more piece than there are separators. */
  function Split(s: string, sep: char): (parts: seq<string>)
    ensures |parts| == Count(s, sep) + 1
    ensures forall i :: 0 <= i < |parts| ==> sep !in parts[i]
    ensures Join(parts, sep) == s
  {
    var parts := SplitN(s, sep, Count(s, sep) + 1);
    CountJoin(parts, sep);
    parts
  }

  lemma JoinCons(x: string, rest: seq<string>, sep: char)
    requires |rest| > 0
    ensures Join([x] + rest, sep) == x + [sep] + Join(rest, sep)
  {
    assert ([x] + rest)[1..] == rest;
  }

  lemma JoinPair(x: string, y: string, sep: char)
    ensures Join([x, y], sep) == x + [sep] + y
  {
    assert [x, y][1..] == [y];
  }

  lemma JoinExtendHead(x: string, parts: seq<string>, sep: char)
    requires |parts| > 0
    ensures Join([x + parts[0]] + parts[1..], sep) == x + Join(parts, sep)
  {
    var ext := [x + parts[0]] + parts[1..];
    assert ext[1..] == parts[1..];
  }

  /** Prepending a character other than `sep` to the first piece keeps the shape of a splitting. */
  lemma ExtendHeadShape(c: char, parts: seq<string>, sep: char, n: nat)
    requires c != sep && SplitShape(parts, sep, n)
    ensures SplitShape([[c] + parts[0]] + parts[1..], sep, n)
  {
    var ext := [[c] + parts[0]] + parts[1..];
    assert sep !in [c];
    assert forall i :: 1 <= i < |ext| ==> ext[i] == parts[i];
  }

  lemma {:induction false} CountAppend(a: string, b: string, c: char)
    ensures Count(a + b, c) == Count(a, c) + Count(b, c)
  {
    if |a| > 0 {
      assert (a + b)[1..] == a[1..] + b;
      CountAppend(a[1..], b, c);
    } else {
      assert a + b == b;
    }
  }

  /** Joining pieces that hold no separator except perhaps the last adds exactly one separator per gap. */
  lemma {:induction false} CountJoin(parts: seq<string>, sep: char)
    requires |parts| > 0
    requires forall i :: 0 <= i < |parts| - 1 ==> sep !in parts[i]
    ensures Count(Join(parts, sep), sep) == |parts| - 1 + Count(parts[|parts| - 1], sep)
  {
    if |parts| > 1 {
      CountJoin(parts[1..], sep);
      CountAppend(parts[0], [sep] + Join(parts[1..], sep), sep);
      CountAppend([sep], Join(parts[1..], sep), sep);
      assert parts[0] + [sep] + Join(parts[1..], sep) == parts[0] + ([sep] + Join(parts[1..], sep));
    }
  }

  /** Position of the first `c` in `s`. */
  function IndexOf(s: string, c: char): (i: nat)
    requires c in s
    ensures i < |s| && s[i] == c && c !in s[..i]
  {
    if s[0] == c then 0
    else
      assert s == [s[0]] + s[1..];
      var i := 1 + IndexOf(s[1..], c);
      assert s[..i] == [s[0]] + s[1..][..i - 1];
      i
  }

  /** A separator-free prefix followed by the separator ends where the first separator is. */
  lemma {:induction false} PrefixBeforeSeparator(a: string, x: string, sep: char)
    requires sep !in a
    ensures sep in a + [sep] + x && IndexOf(a + [sep] + x, sep) == |a|
  {
    var s := a + [sep] + x;
    assert s[|a|] == sep;
    if |a| > 0 {
      assert s[1..] == a[1..] + [sep] + x;
      PrefixBeforeSeparator(a[1..], x, sep);
    }
  }

  /** The text before the first separator is the same on both sides. */
  lemma FirstSegment(a: string, b: string, x: string, y: string, sep: char)
    requires sep !in a && sep !in b
    requires a + [sep] + x == b + [sep] + y
    ensures a == b && x == y
  {
    var s := a + [sep] + x;
    PrefixBeforeSeparator(a, x, sep);
    PrefixBeforeSeparator(b, y, sep);
    assert a == s[..|a|];
    assert x == s[|a| + 1..];
  }

  /** Two splittings of the same shape that join to the same string are equal. */
  lemma {:induction false} JoinShapeInjective(p: seq<string>, q: seq<string>, sep: char, n: nat)
    requires SplitShape(p, sep, n) && SplitShape(q, sep, n)
    requires Join(p, sep) == Join(q, sep)
    ensures p == q
  {
    if |p| > 1 && |q| > 1 {
      FirstSegment(p[0], q[0], Join(p[1..], sep), Join(q[1..], sep), sep);
      JoinShapeInjective(p[1..], q[1..], sep, n - 1);
      assert p == [p[0]] + p[1..];
      assert q == [q[0]] + q[1..];
    }
  }

  /** Splitting undoes joining, for pieces of the shape `SplitN` produces. */
  lemma SplitNJoin(parts: seq<string>, sep: char, n: nat)
    requires n > 0 && SplitShape(parts, sep, n)
    ensures SplitN(Join(parts, sep), sep, n) == parts
  {
    JoinShapeInjective(SplitN(Join(parts, sep), sep, n), parts, sep, n);
  }

  /** Splitting undoes joining, for pieces that hold no separator. */
  lemma SplitJoin(parts: seq<string>, sep: char)
    requires |parts| > 0
    requires forall i :: 0 <= i < |parts| ==> sep !in parts[i]
    ensures Split(Join(parts, sep), sep) == parts
  {
    CountJoin(parts, sep);
    JoinShapeInjective(Split(Join(parts, sep), sep), parts, sep, |parts|);
  }
}
