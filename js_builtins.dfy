/**
 * The few JavaScript built-ins the core relies on, written out so that their
 * behaviour is part of the model: `Array.prototype.includes`, `map`,
 * `find` (over the first-match index scan `FindIndex`), `slice(0, n)`,
 * `String.prototype.startsWith`, a string's `length` (counted in UTF-16
 * code units), and the decimal rendering of a non-negative integer in a
 * template literal (`${n}`).
 */
module JsBuiltins {
  import opened Wrappers

  /** `xs.includes(x)`: a left-to-right scan for an equal element. */
  function Includes<T(==)>(xs: seq<T>, x: T): (r: bool)
    ensures r <==> x in xs
  {
    if xs == [] then false
    else xs[0] == x || Includes(xs[1..], x)
  }

  /** `s.startsWith(p)`: compares character by character from the left. */
  function StartsWith(s: string, p: string): (r: bool)
    ensures r <==> |p| <= |s| && s[..|p|] == p
  {
    if p == [] then true
    else if s == [] then false
    else s[0] == p[0] && StartsWith(s[1..], p[1..])
  }

  /** `xs.map(f)`: `f` applied to each element, in order. */
  function Map<T, U>(xs: seq<T>, f: T -> U): (ys: seq<U>)
    ensures |ys| == |xs|
    ensures forall i :: 0 <= i < |xs| ==> ys[i] == f(xs[i])
  {
    if xs == [] then [] else [f(xs[0])] + Map(xs[1..], f)
  }

  /** The left-to-right scan `xs.find(p)` performs: the first index whose element satisfies `p`, or -1. */
  function FindIndex<T>(xs: seq<T>, p: T -> bool): (k: int)
    ensures -1 <= k < |xs|
    ensures 0 <= k ==> p(xs[k]) && forall j :: 0 <= j < k ==> !p(xs[j])
    ensures k == -1 ==> forall j :: 0 <= j < |xs| ==> !p(xs[j])
  {
    if xs == [] then -1
    else if p(xs[0]) then 0
    else
      var k := FindIndex(xs[1..], p);
      if k == -1 then -1 else k + 1
  }

  /** `xs.find(p)`: the first element satisfying `p`, or `undefined`. */
  function Find<T>(xs: seq<T>, p: T -> bool): (r: Option<T>)
    ensures r.Some? ==> r.value in xs && p(r.value)
    ensures r.None? <==> forall j :: 0 <= j < |xs| ==> !p(xs[j])
    ensures r.Some? ==> exists k :: 0 <= k < |xs| && xs[k] == r.value && forall j :: 0 <= j < k ==> !p(xs[j])
  {
    var k := FindIndex(xs, p);
    if k == -1 then None else Some(xs[k])
  }

  /** `xs.slice(0, n)` for `n >= 0`: the end index is clamped to the length. */
  function SliceHead<T>(xs: seq<T>, n: nat): (r: seq<T>)
    ensures |r| == if n < |xs| then n else |xs|
    ensures forall i :: 0 <= i < |r| ==> r[i] == xs[i]
  {
    if n < |xs| then xs[..n] else xs
  }

  /** The number of UTF-16 code units that encode `c`: two for a code point beyond U+FFFF. */
  function CodeUnits(c: char): (n: nat)
  {
    if c as int < 0x1_0000 then 1 else 2
  }

  /** `s.length`: JavaScript measures a string in UTF-16 code units, not in code points. */
  function Utf16Length(s: string): (n: nat)
    ensures |s| <= n <= 2 * |s|
    ensures (forall i :: 0 <= i < |s| ==> s[i] as int < 0x1_0000) ==> n == |s|
    ensures (forall i :: 0 <= i < |s| ==> 0x1_0000 <= s[i] as int) ==> n == 2 * |s|
  {
    if s == [] then 0 else CodeUnits(s[0]) + Utf16Length(s[1..])
  }

  /** The length of a concatenation is the sum of the lengths, which fixes `Utf16Length` on every string. */
  lemma {:induction false} Utf16LengthAppend(a: string, b: string)
    ensures Utf16Length(a + b) == Utf16Length(a) + Utf16Length(b)
  {
    if a == [] {
      assert a + b == b;
    } else {
      assert (a + b)[0] == a[0] && (a + b)[1..] == a[1..] + b;
      Utf16LengthAppend(a[1..], b);
    }
  }

  function DigitChar(d: nat): (c: char)
    requires d < 10
    ensures '0' <= c <= '9'
    ensures c as int == '0' as int + d
  {
    "0123456789"[d]
  }

  /** The number a string of decimal digits denotes, most significant digit first. */
  function DecimalValue(s: string): (n: nat)
    requires forall i :: 0 <= i < |s| ==> '0' <= s[i] <= '9'
  {
    if s == [] then 0
    else 10 * DecimalValue(s[..|s| - 1]) + (s[|s| - 1] as int - '0' as int)
  }

  /** The decimal text of `n` (no sign, no leading zeros), as `${n}` renders it. */
  function NatToString(n: nat): (s: string)
    ensures 1 <= |s|
    ensures forall i :: 0 <= i < |s| ==> '0' <= s[i] <= '9'
    ensures n < 10 <==> |s| == 1
    ensures 1 <= n ==> s[0] != '0'
  {
    if n < 10 then [DigitChar(n)]
    else NatToString(n / 10) + [DigitChar(n % 10)]
  }

  /** The digits `NatToString` produces are the decimal expansion of `n`. */
  lemma {:induction false} NatToStringIsDecimal(n: nat)
    ensures DecimalValue(NatToString(n)) == n
  {
    if 10 <= n {
      var s := NatToString(n);
      assert s[..|s| - 1] == NatToString(n / 10);
      NatToStringIsDecimal(n / 10);
    }
  }

  lemma DigitCharInjective(a: nat, b: nat)
    requires a < 10 && b < 10
    ensures DigitChar(a) == DigitChar(b) ==> a == b
  {
  }

  /** Distinct numbers render as distinct strings. */
  lemma {:induction false} NatToStringInjective(a: nat, b: nat)
    ensures NatToString(a) == NatToString(b) ==> a == b
  {
    if NatToString(a) == NatToString(b) {
      if a < 10 || b < 10 {
        DigitCharInjective(a, b);
      } else {
        var sa, sb := NatToString(a), NatToString(b);
        assert sa == NatToString(a / 10) + [DigitChar(a % 10)];
        assert sb == NatToString(b / 10) + [DigitChar(b % 10)];
        assert NatToString(a / 10) == sa[..|sa| - 1];
        assert NatToString(b / 10) == sb[..|sb| - 1];
        NatToStringInjective(a / 10, b / 10);
        DigitCharInjective(a % 10, b % 10);
      }
    }
  }

  /** Two strings built from the same prefix are equal only if their tails are. */
  lemma PrefixedInjective(prefix: string, a: string, b: string)
    ensures prefix + a == prefix + b ==> a == b
  {
    if prefix + a == prefix + b {
      assert a == (prefix + a)[|prefix|..];
      assert b == (prefix + b)[|prefix|..];
    }
  }
}
