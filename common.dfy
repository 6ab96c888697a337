/**
 * Shared vocabulary of the CapConnect model: optional values, JavaScript's
 * Math.round on exact reals, sums and counts over fetched rows, and the
 * handful of JavaScript string operations the components use (trim, the
 * first-occurrence String.replace, lastIndexOf, includes) and the decimal
 * rendering of a non-negative integer.
 */
module Common {

  datatype Option<T> = None | Some(value: T)

  /** A nullable list that the page reads as `list?.length || 0`. */
  function LengthOr0<T>(xs: Option<seq<T>>): (n: nat)
    ensures xs.None? ==> n == 0
    ensures xs.Some? ==> n == |xs.value|
  {
    match xs
    case None => 0
    case Some(s) => |s|
  }

  // ---------------------------------------------------------------------------
  // Numbers

  /** JavaScript's Math.round: the nearest integer, halves rounded up. */
  function Round(x: real): (r: int)
    ensures x - 0.5 < r as real <= x + 0.5
  {
    (x + 0.5).Floor
  }

  lemma RoundMonotone(x: real, y: real)
    requires x <= y
    ensures Round(x) <= Round(y)
  {
  }

  lemma RoundOfInt(n: int)
    ensures Round(n as real) == n
  {
  }

  /** Multiplying both sides by the same positive factor keeps an order: it can be cancelled. */
  lemma MulCancel(x: real, y: real, n: real)
    requires n > 0.0 && x * n <= y * n
    ensures x <= y
  {
  }

  /** A mean of whole numbers each in [lo, hi] lies in [lo, hi]: stated on their total and count. */
  lemma MeanInRange(total: int, count: int, lo: int, hi: int)
    requires count > 0 && count * lo <= total <= count * hi
    ensures lo as real <= total as real / count as real <= hi as real
  {
    var n := count as real;
    var mean := total as real / n;
    assert mean * n == total as real;
    assert (count * lo) as real == lo as real * n;
    assert (count * hi) as real == hi as real * n;
    MulCancel(lo as real, mean, n);
    MulCancel(mean, hi as real, n);
  }

  /** `Math.min` of two numbers, on reals and on integers: the smaller one. */
  function MinReal(a: real, b: real): (r: real)
    ensures r <= a && r <= b
    ensures r == a || r == b
  {
    if a <= b then a else b
  }

  function MinInt(a: int, b: int): (r: int)
    ensures r <= a && r <= b
    ensures r == a || r == b
  {
    if a <= b then a else b
  }

  /** `xs.reduce((sum, x) => sum + x, 0)` over integers. */
  function SumInt(xs: seq<int>): int
  {
    if xs == [] then 0 else SumInt(xs[..|xs| - 1]) + xs[|xs| - 1]
  }

  /** `xs.reduce((sum, x) => sum + x, 0)` over exact reals. */
  function SumReal(xs: seq<real>): real
  {
    if xs == [] then 0.0 else SumReal(xs[..|xs| - 1]) + xs[|xs| - 1]
  }

  lemma {:induction false} SumIntAppend(a: seq<int>, b: seq<int>)
    ensures SumInt(a + b) == SumInt(a) + SumInt(b)
    decreases |b|
  {
    if b == [] {
      assert a + b == a;
    } else {
      assert (a + b)[..|a + b| - 1] == a + b[..|b| - 1];
      SumIntAppend(a, b[..|b| - 1]);
    }
  }

  lemma {:induction false} SumRealAppend(a: seq<real>, b: seq<real>)
    ensures SumReal(a + b) == SumReal(a) + SumReal(b)
    decreases |b|
  {
    if b == [] {
      assert a + b == a;
    } else {
      assert (a + b)[..|a + b| - 1] == a + b[..|b| - 1];
      SumRealAppend(a, b[..|b| - 1]);
    }
  }

  /** A sum of values that all lie in [lo, hi] lies in [n*lo, n*hi]. */
  lemma {:induction false} SumIntBounds(xs: seq<int>, lo: int, hi: int)
    requires forall i :: 0 <= i < |xs| ==> lo <= xs[i] <= hi
    ensures |xs| * lo <= SumInt(xs) <= |xs| * hi
  {
    if xs != [] {
      var init := xs[..|xs| - 1];
      SumIntBounds(init, lo, hi);
      assert |xs| * lo == |init| * lo + lo && |xs| * hi == |init| * hi + hi;
    }
  }

  /** The number of entries of `xs` equal to `v`: `xs.filter(x => x === v).length`. */
  function CountOf(xs: seq<string>, v: string): (n: nat)
    ensures n <= |xs|
  {
    if xs == [] then 0
    else CountOf(xs[..|xs| - 1], v) + (if xs[|xs| - 1] == v then 1 else 0)
  }

  lemma {:induction false} CountOfAppend(a: seq<string>, b: seq<string>, v: string)
    ensures CountOf(a + b, v) == CountOf(a, v) + CountOf(b, v)
    decreases |b|
  {
    if b == [] {
      assert a + b == a;
    } else {
      assert (a + b)[..|a + b| - 1] == a + b[..|b| - 1];
      CountOfAppend(a, b[..|b| - 1], v);
    }
  }

  /** The counts of several values, added up. */
  function CountsOf(xs: seq<string>, vs: seq<string>): nat
  {
    if vs == [] then 0 else CountsOf(xs, vs[..|vs| - 1]) + CountOf(xs, vs[|vs| - 1])
  }

  predicate Distinct(vs: seq<string>)
  {
    forall i, j :: 0 <= i < j < |vs| ==> vs[i] != vs[j]
  }

  /** One entry matches at most one of several distinct values. */
  lemma {:induction false} OneEntryCountsOnce(x: string, vs: seq<string>)
    requires Distinct(vs)
    ensures CountsOf([x], vs) <= 1
    ensures x !in vs ==> CountsOf([x], vs) == 0
    ensures x in vs ==> CountsOf([x], vs) == 1
  {
    if vs != [] {
      var init := vs[..|vs| - 1];
      assert Distinct(init);
      OneEntryCountsOnce(x, init);
      assert [x][..0] == [];
      if x == vs[|vs| - 1] {
        assert x !in init;
      }
    }
  }

  lemma {:induction false} CountsOfAppend(a: seq<string>, b: seq<string>, vs: seq<string>)
    ensures CountsOf(a + b, vs) == CountsOf(a, vs) + CountsOf(b, vs)
  {
    if vs != [] {
      CountsOfAppend(a, b, vs[..|vs| - 1]);
      CountOfAppend(a, b, vs[|vs| - 1]);
    }
  }

  /**
   * Counting the entries equal to each of several DISTINCT values never
   * counts an entry twice, so the counts add up to at most the list length.
   */
  lemma {:induction false} CountsOfDistinctBounded(xs: seq<string>, vs: seq<string>)
    requires Distinct(vs)
    ensures CountsOf(xs, vs) <= |xs|
    decreases |xs|
  {
    if xs != [] {
      var init := xs[..|xs| - 1];
      assert xs == init + [xs[|xs| - 1]];
      CountsOfAppend(init, [xs[|xs| - 1]], vs);
      CountsOfDistinctBounded(init, vs);
      OneEntryCountsOnce(xs[|xs| - 1], vs);
    } else {
      CountsOfEmpty(vs);
    }
  }

  /** When the distinct values cover every entry, each entry is counted exactly once. */
  lemma {:induction false} CountsOfCovering(xs: seq<string>, vs: seq<string>)
    requires Distinct(vs)
    requires forall i :: 0 <= i < |xs| ==> xs[i] in vs
    ensures CountsOf(xs, vs) == |xs|
    decreases |xs|
  {
    if xs != [] {
      var init := xs[..|xs| - 1];
      assert xs == init + [xs[|xs| - 1]];
      CountsOfAppend(init, [xs[|xs| - 1]], vs);
      CountsOfCovering(init, vs);
      OneEntryCountsOnce(xs[|xs| - 1], vs);
    } else {
      CountsOfEmpty(vs);
    }
  }

  lemma {:induction false} CountsOfEmpty(vs: seq<string>)
    ensures CountsOf([], vs) == 0
  {
    if vs != [] {
      CountsOfEmpty(vs[..|vs| - 1]);
    }
  }

  /** `new Set(xs).size` never exceeds the number of entries. */
  lemma {:induction false} DistinctCountBounded<T>(xs: seq<T>)
    ensures |set x | x in xs| <= |xs|
  {
    if xs != [] {
      var init := xs[..|xs| - 1];
      DistinctCountBounded(init);
      assert (set x | x in xs) == (set x | x in init) + {xs[|xs| - 1]} by {
        assert xs == init + [xs[|xs| - 1]];
      }
    }
  }

  // ---------------------------------------------------------------------------
  // Strings

  /** The characters String.prototype.trim strips (WhiteSpace and LineTerminator). */
  predicate IsWhitespace(c: char)
  {
    || c == ' ' || c == '\t' || c == '\n' || c == '\r'
    || c == '\U{000B}' || c == '\U{000C}' || c == '\U{00A0}' || c == '\U{1680}'
    || ('\U{2000}' <= c <= '\U{200A}')
    || c == '\U{2028}' || c == '\U{2029}' || c == '\U{202F}' || c == '\U{205F}'
    || c == '\U{3000}' || c == '\U{FEFF}'
  }

  predicate AllWhitespace(s: string)
  {
    forall i :: 0 <= i < |s| ==> IsWhitespace(s[i])
  }

  function TrimStart(s: string): (r: string)
    ensures |r| <= |s| && r == s[|s| - |r|..]
    ensures AllWhitespace(s[..|s| - |r|])
    ensures r != [] ==> !IsWhitespace(r[0])
  {
    if s == [] || !IsWhitespace(s[0]) then s
    else
      var r := TrimStart(s[1..]);
      assert s[1..][..|s| - 1 - |r|] == s[1..|s| - |r|];
      r
  }

  function TrimEnd(s: string): (r: string)
    ensures |r| <= |s| && r == s[..|r|]
    ensures AllWhitespace(s[|r|..])
    ensures r != [] ==> !IsWhitespace(r[|r| - 1])
  {
    if s == [] || !IsWhitespace(s[|s| - 1]) then s
    else
      var r := TrimEnd(s[..|s| - 1]);
      assert s[..|s| - 1][|r|..] == s[|r|..|s| - 1];
      r
  }

  /**
   * String.prototype.trim: `s` with its leading and trailing whitespace
   * removed. The result is empty exactly when `s` is all whitespace.
   */
  function Trim(s: string): (r: string)
    ensures r == [] <==> AllWhitespace(s)
    ensures r != [] ==> !IsWhitespace(r[0]) && !IsWhitespace(r[|r| - 1])
    ensures exists k :: OccursAt(s, r, k)
  {
    var a := TrimStart(s);
    var r := TrimEnd(a);
    assert r == [] ==> AllWhitespace(s) by {
      if r == [] {
        assert s == s[..|s| - |a|] + a;
      }
    }
    assert OccursAt(s, r, |s| - |a|);
    r
  }

  /** The first index of `c` in `s`, as String.prototype.indexOf. */
  function IndexOf(s: string, c: char): (r: Option<nat>)
    ensures r.None? <==> c !in s
    ensures r.Some? ==> r.value < |s| && s[r.value] == c && c !in s[..r.value]
  {
    if s == [] then None
    else if s[0] == c then Some(0)
    else
      match IndexOf(s[1..], c)
      case None => None
      case Some(k) =>
        assert s[..k + 1] == [s[0]] + s[1..][..k];
        Some(k + 1)
  }

  /** The last index of `c` in `s`, as String.prototype.lastIndexOf. */
  function LastIndexOf(s: string, c: char): (r: Option<nat>)
    ensures r.None? <==> c !in s
    ensures r.Some? ==> r.value < |s| && s[r.value] == c && c !in s[r.value + 1..]
  {
    if s == [] then None
    else if s[|s| - 1] == c then Some(|s| - 1)
    else
      match LastIndexOf(s[..|s| - 1], c)
      case None => None
      case Some(k) =>
        assert s[k + 1..] == s[..|s| - 1][k + 1..] + [s[|s| - 1]];
        Some(k)
  }

  /**
   * `s.replace(from, to)` with a one-character string pattern: only the FIRST
   * occurrence of `from` is replaced; a string without `from` is unchanged.
   */
  function ReplaceFirst(s: string, from: char, to: char): (r: string)
    ensures |r| == |s|
    ensures from !in s ==> r == s
    ensures from in s ==> exists k :: 0 <= k < |s| && from !in s[..k] && s[k] == from &&
                                       r == s[..k] + [to] + s[k + 1..]
  {
    match IndexOf(s, from)
    case None => s
    case Some(k) => s[..k] + [to] + s[k + 1..]
  }

  /** `sub` occurs in `s` starting at index `i`. */
  predicate OccursAt(s: string, sub: string, i: int)
  {
    0 <= i && i + |sub| <= |s| && s[i..i + |sub|] == sub
  }

  /** `s.includes(sub)`. */
  predicate Contains(s: string, sub: string)
  {
    exists i :: 0 <= i <= |s| - |sub| && OccursAt(s, sub, i)
  }

  /** `s.split(sep).pop()`: the text after the last `sep`, or all of `s`. */
  function AfterLast(s: string, sep: char): (r: string)
    ensures sep !in r
    ensures |r| <= |s| && r == s[|s| - |r|..]
    ensures sep in s ==> s == s[..|s| - |r| - 1] + [sep] + r
    ensures sep !in s ==> r == s
  {
    match LastIndexOf(s, sep)
    case None => s
    case Some(k) =>
      assert s == s[..k] + [sep] + s[k + 1..];
      s[k + 1..]
  }

  // ---------------------------------------------------------------------------
  // Decimal rendering of naturals, as template literals show a number

  function DigitChar(d: nat): (c: char)
    requires d < 10
    ensures '0' <= c <= '9'
  {
    ['0', '1', '2', '3', '4', '5', '6', '7', '8', '9'][d]
  }

  function DigitValue(c: char): nat
    requires '0' <= c <= '9'
  {
    (c as int - '0' as int) as nat
  }

  predicate IsDigits(s: string)
  {
    forall i :: 0 <= i < |s| ==> '0' <= s[i] <= '9'
  }

  /** The number a string of decimal digits denotes. */
  function DigitsValue(s: string): nat
    requires IsDigits(s)
  {
    if s == [] then 0 else 10 * DigitsValue(s[..|s| - 1]) + DigitValue(s[|s| - 1])
  }

  /** `${n}` for a non-negative integer: its decimal digits, most significant first. */
  function NatToString(n: nat): (r: string)
    ensures |r| >= 1 && IsDigits(r)
    ensures n >= 10 <==> r[0] != '0' && |r| >= 2
  {
    if n < 10 then [DigitChar(n)] else NatToString(n / 10) + [DigitChar(n % 10)]
  }

  /** Reading back the digits gives the number: the rendering loses nothing. */
  lemma {:induction false} NatToStringValue(n: nat)
    ensures DigitsValue(NatToString(n)) == n
  {
    var s := NatToString(n);
    if n < 10 {
      assert DigitValue(DigitChar(n)) == n by {
        assert n == 0 || n == 1 || n == 2 || n == 3 || n == 4 || n == 5 || n == 6 || n == 7 || n == 8 || n == 9;
      }
      assert s[..0] == [];
    } else {
      NatToStringValue(n / 10);
      var d := n % 10;
      assert DigitValue(DigitChar(d)) == d by {
        assert d == 0 || d == 1 || d == 2 || d == 3 || d == 4 || d == 5 || d == 6 || d == 7 || d == 8 || d == 9;
      }
      assert s[..|s| - 1] == NatToString(n / 10);
    }
  }
}
