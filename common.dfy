/**
  Small pieces of Python's built-in behaviour that both converter scripts rely on:
  optional values, list indexing with negative indices, string repetition,
  `str(int)`, ASCII `lower()` and the left-aligned `{s:width}` format field.
 */
module Common {

  datatype Option<+T> = None | Some(value: T)

  /** What `int(choice)` made of the typed menu answer: a number, or the `ValueError`
      of an answer that is not one. */
  datatype Choice = Number(n: int) | NotANumber

  /** Python's `xs[i]` on a list: negative indices count from the end, and an index
      outside `-len(xs) .. len(xs)-1` raises `IndexError` (here: `None`). */
  function PyIndex<T>(xs: seq<T>, i: int): (r: Option<T>)
    ensures r.Some? <==> -|xs| <= i < |xs|
    ensures r.Some? ==> r.value == xs[i % |xs|]
  {
    if 0 <= i < |xs| then Some(xs[i])
    else if -|xs| <= i < 0 then Some(xs[|xs| + i])
    else None
  }

  /** Python's `c * n` for a one-character string: empty when `n <= 0`. */
  function Repeat(c: char, n: int): (r: string)
    ensures |r| == if n > 0 then n else 0
    ensures forall k :: 0 <= k < |r| ==> r[k] == c
    decreases if n > 0 then n else 0
  {
    if n <= 0 then [] else [c] + Repeat(c, n - 1)
  }

  /** Python's `a // b`: division rounding towards minus infinity. Dafny's `/` is
      Euclidean, which agrees with it whenever the divisor is positive. */
  function FloorDiv(a: int, b: int): (q: int)
    requires b != 0
    ensures b > 0 ==> q * b <= a < q * b + b
    ensures b < 0 ==> q * b >= a > q * b + b
  {
    if b > 0 then a / b else (-a) / (-b)
  }

  function DigitChar(d: nat): char
    requires d < 10
  {
    "0123456789"[d]
  }

  /** The number a string of decimal digits spells, most significant digit first. */
  function DecimalValue(s: string): nat
  {
    if s == [] then 0
    else 10 * DecimalValue(s[..|s| - 1]) + (if '0' <= s[|s| - 1] <= '9' then s[|s| - 1] as int - '0' as int else 0)
  }

  /** `s` is how `str` writes `n`: decimal digits only, with value `n` and no leading
      zero unless `n` is 0. */
  predicate Spells(s: string, n: nat)
  {
    s != [] && (forall k :: 0 <= k < |s| ==> '0' <= s[k] <= '9') && DecimalValue(s) == n && (s[0] == '0' ==> s == "0")
  }

  /** `str(n)` for a non-negative integer: the decimal digits that spell `n`, with no
      leading zero. */
  function NatToString(n: nat): (r: string)
    ensures |r| >= 1
    ensures forall k :: 0 <= k < |r| ==> '0' <= r[k] <= '9'
    ensures DecimalValue(r) == n
    ensures r[0] == '0' ==> r == "0"
    decreases n
  {
    if n < 10 then [DigitChar(n)] else NatToString(n / 10) + [DigitChar(n % 10)]
  }

  /** `str(n)` for any integer: a minus sign exactly for a negative number, then the
      spelling of its magnitude. */
  function IntToString(n: int): (r: string)
    ensures r != [] && (r[0] == '-' <==> n < 0)
    ensures n >= 0 ==> Spells(r, n)
    ensures n < 0 ==> Spells(r[1..], -n)
  {
    if n < 0 then "-" + NatToString(-n) else NatToString(n)
  }

  /** `c.lower()` restricted to ASCII: only `A`..`Z` change. */
  function LowerChar(c: char): char
  {
    if 'A' <= c <= 'Z' then (c as int + 32) as char else c
  }

  /** `s.lower()` restricted to ASCII. */
  function Lower(s: string): (r: string)
    ensures |r| == |s|
    ensures forall k :: 0 <= k < |s| ==> r[k] == LowerChar(s[k])
  {
    seq(|s|, k requires 0 <= k < |s| => LowerChar(s[k]))
  }

  /** The f-string field `{s:w}` for a string: left-aligned, padded with spaces to
      at least `w` characters, never cut. */
  function PadRight(s: string, w: int): (r: string)
    ensures |r| == if |s| < w then w else |s|
    ensures r[..|s|] == s
    ensures forall k :: |s| <= k < |r| ==> r[k] == ' '
  {
    s + Repeat(' ', w - |s|)
  }

  /** `s.endswith(t)`. */
  predicate EndsWith<T(==)>(s: seq<T>, t: seq<T>)
  {
    |t| <= |s| && s[|s| - |t|..] == t
  }

  /** `s.startswith(t)`. */
  predicate StartsWith<T(==)>(s: seq<T>, t: seq<T>)
  {
    |t| <= |s| && s[..|t|] == t
  }

  /** Appending to a string keeps what it starts with. */
  lemma StartsWithAppend<T>(s: seq<T>, t: seq<T>, u: seq<T>)
    requires StartsWith(s, t)
    ensures StartsWith(s + u, t)
  {
    assert (s + u)[..|t|] == s[..|t|];
  }

  lemma EndsWithAppend<T>(s: seq<T>, t: seq<T>)
    ensures EndsWith(s + t, t)
  {
    assert (s + t)[|s|..] == t;
  }

  lemma EndsWithTransitive<T>(a: seq<T>, b: seq<T>, c: seq<T>)
    requires EndsWith(a, b) && EndsWith(b, c)
    ensures EndsWith(a, c)
  {
    forall i | 0 <= i < |c| ensures a[|a| - |c| + i] == c[i] {
      assert c[i] == b[|b| - |c| + i] == a[|a| - |b| + |b| - |c| + i];
    }
  }
}
