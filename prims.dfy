/**
 * Shared vocabulary: optional values, results, the machine integer widths
 * the toolkit uses, and the small arithmetic and ASCII helpers whose Rust
 * semantics differ from Dafny's defaults.
 */
module Prims {

  datatype Option<T> = None | Some(value: T) {
    /** `unwrap_or`: the carried value, or `d` when there is none. */
    function GetOr(d: T): T {
      if Some? then value else d
    }
  }

  datatype Result<T, E> = Ok(value: T) | Err(error: E)

  const U32_LIMIT: int := 0x1_0000_0000

  /** Rust `u8` and `u32`. */
  type u8 = x: int | 0 <= x < 0x100
  type u32 = x: int | 0 <= x < 0x1_0000_0000

  /** Wrap-around of an unsigned 32-bit result (a release build's `u32` arithmetic). */
  function Wrap32(x: int): (r: u32)
    ensures 0 <= x < U32_LIMIT ==> r == x
    ensures (r - x) % U32_LIMIT == 0
  {
    x % U32_LIMIT
  }

  /** `u32::saturating_sub`. */
  function SaturatingSub(a: nat, b: nat): (r: nat)
    ensures r <= a
    ensures a >= b ==> r + b == a
    ensures a <= b ==> r == 0
  {
    if a > b then a - b else 0
  }

  /** Rust's integer `/` by a positive divisor: the quotient is truncated toward zero. */
  function TruncDiv(a: int, d: int): (q: int)
    requires d > 0
    ensures a >= 0 ==> 0 <= a - q * d < d
    ensures a < 0 ==> -d < a - q * d <= 0
  {
    if a >= 0 then a / d else -((-a) / d)
  }

  function Min(a: int, b: int): int { if a <= b then a else b }
  function Max(a: int, b: int): int { if a >= b then a else b }

  /** `f32::clamp(lo, hi)` over the reals; the source only calls it with `lo <= hi`. */
  function Clamp(v: real, lo: real, hi: real): (r: real)
    requires lo <= hi
    ensures lo <= r <= hi
    ensures lo <= v <= hi ==> r == v
    ensures v < lo ==> r == lo
    ensures v > hi ==> r == hi
  {
    if v < lo then lo else if v > hi then hi else v
  }

  /** `char::to_ascii_lowercase`. */
  function ToLowerAscii(c: char): char {
    if 'A' <= c <= 'Z' then (c as int + 32) as char else c
  }

  /** `str::to_lowercase` on ASCII text. */
  function Lowercase(s: string): (r: string)
    ensures |r| == |s|
    ensures forall i :: 0 <= i < |s| ==> r[i] == ToLowerAscii(s[i])
  {
    if s == [] then [] else [ToLowerAscii(s[0])] + Lowercase(s[1..])
  }

  /** `pat` occurs in `s` starting at position `i`. */
  predicate OccursAt(s: string, pat: string, i: nat) {
    i + |pat| <= |s| && s[i..i + |pat|] == pat
  }

  /** `str::contains(pat)`: `pat` occurs in `s` as a contiguous substring. */
  ghost predicate HasSubstring(s: string, pat: string) {
    exists i: nat :: OccursAt(s, pat, i)
  }

  /** `str::contains(pat)`, decided by scanning the start positions in turn. */
  function ContainsStr(s: string, pat: string): (b: bool)
    ensures b <==> HasSubstring(s, pat)
    decreases |s|
  {
    if |pat| > |s| then
      false
    else if s[..|pat|] == pat then
      assert OccursAt(s, pat, 0);
      true
    else
      var r := ContainsStr(s[1..], pat);
      assert HasSubstring(s[1..], pat) ==> HasSubstring(s, pat) by {
        if HasSubstring(s[1..], pat) {
          var i: nat :| OccursAt(s[1..], pat, i);
          assert s[i + 1..i + 1 + |pat|] == s[1..][i..i + |pat|];
          assert OccursAt(s, pat, i + 1);
        }
      }
      assert HasSubstring(s, pat) ==> HasSubstring(s[1..], pat) by {
        if HasSubstring(s, pat) {
          var i: nat :| OccursAt(s, pat, i);
          assert i != 0;
          assert s[1..][i - 1..i - 1 + |pat|] == s[i..i + |pat|];
          assert OccursAt(s[1..], pat, i - 1);
        }
      }
      r
  }

  /** A fraction of a whole number of pixels, rounded down, stays within [0, whole]. */
  lemma {:induction false} Portion(whole: nat, ratio: real)
    requires 0.0 <= ratio <= 1.0
    ensures 0 <= (whole as real * ratio).Floor <= whole
    ensures ratio == 0.0 ==> (whole as real * ratio).Floor == 0
  {
    assert 0.0 <= whole as real * ratio <= whole as real * 1.0;
  }

  /** Wrapping one factor first does not change a product that fits in 32 bits. */
  lemma {:induction false} WrapFactor(a: nat, b: nat)
    ensures a * b < U32_LIMIT ==> Wrap32(a) * b == a * b
  {
    if b > 0 && a * b < U32_LIMIT {
      AtMostProduct(a, b);
      assert Wrap32(a) == a;
    }
  }

  /**
   * `xs.into_iter().map(f).collect::<Result<Vec<_>, _>>()`: every element
   * mapped, in order, or the first error met.
   */
  function CollectResults<A, B, E>(f: A -> Result<B, E>, xs: seq<A>): (r: Result<seq<B>, E>)
    ensures r.Ok? ==> |r.value| == |xs|
    decreases |xs|
  {
    if xs == [] then
      Ok([])
    else
      match f(xs[0])
      case Err(e) => Err(e)
      case Ok(first) =>
        match CollectResults(f, xs[1..])
        case Err(e) => Err(e)
        case Ok(rest) => Ok([first] + rest)
  }

  /** Collecting succeeds exactly when every element maps to `Ok`, and then holds those values in order. */
  lemma {:induction false} CollectResultsOk<A, B, E>(f: A -> Result<B, E>, xs: seq<A>)
    ensures CollectResults(f, xs).Ok? <==> forall i :: 0 <= i < |xs| ==> f(xs[i]).Ok?
    ensures CollectResults(f, xs).Ok? ==> forall i :: 0 <= i < |xs| ==> CollectResults(f, xs).value[i] == f(xs[i]).value
    decreases |xs|
  {
    if xs != [] {
      CollectResultsOk(f, xs[1..]);
      assert forall i :: 1 <= i < |xs| ==> xs[i] == xs[1..][i - 1];
    }
  }

  /** A failed collection reports the error of the first element that fails; all before it map to `Ok`. */
  lemma {:induction false} CollectResultsFirstError<A, B, E>(f: A -> Result<B, E>, xs: seq<A>)
    requires CollectResults(f, xs).Err?
    ensures exists k :: (0 <= k < |xs| && f(xs[k]) == Err(CollectResults(f, xs).error)
                         && forall i :: 0 <= i < k ==> f(xs[i]).Ok?)
    decreases |xs|
  {
    if f(xs[0]).Ok? {
      CollectResultsFirstError(f, xs[1..]);
      var k :| 0 <= k < |xs[1..]| && f(xs[1..][k]) == Err(CollectResults(f, xs[1..]).error)
        && forall i :: 0 <= i < k ==> f(xs[1..][i]).Ok?;
      assert xs[k + 1] == xs[1..][k];
      assert forall i :: 1 <= i < k + 1 ==> xs[i] == xs[1..][i - 1];
    } else {
      assert f(xs[0]) == Err(CollectResults(f, xs).error);
    }
  }

  /** Euclidean division recovers the quotient and remainder a number was built from. */
  lemma {:induction false} DivModUnique(q: int, rem: int, d: int)
    requires d > 0 && 0 <= rem < d
    ensures (q * d + rem) / d == q && (q * d + rem) % d == rem
  {
    var n := q * d + rem;
    var k := n / d - q;
    assert k * d == rem - n % d by {
      assert n == (n / d) * d + n % d;
      assert (n / d) * d == k * d + q * d;
    }
    SmallMultiple(k, d);
  }

  /** The only multiple of `d` strictly between `-d` and `d` is zero. */
  lemma {:induction false} SmallMultiple(k: int, d: int)
    requires d > 0 && -d < k * d < d
    ensures k == 0
  {
    ProductSign(k, d);
  }

  /** A nonzero multiple of `d >= 0` is at least `d` away from zero. */
  lemma {:induction false} ProductSign(k: int, d: int)
    requires d >= 0
    ensures k >= 1 ==> d <= k * d
    ensures k <= -1 ==> k * d <= -d
  {
    if k >= 1 {
      AtMostProduct(d, k);
    } else if k <= -1 {
      AtMostProduct(d, -k);
      assert d * -k == -(k * d);
    }
  }

  /** A positive factor does not make a product of naturals smaller. */
  lemma {:induction false} AtMostProduct(a: nat, b: nat)
    requires b >= 1
    ensures a <= a * b
    decreases b
  {
    if b > 1 {
      AtMostProduct(a, b - 1);
      assert a * b == a * (b - 1) + a;
    }
  }

  /** A part of a positive whole, as a fraction: in [0, 1] and scaling back to the part. */
  lemma {:induction false} Fraction(part: real, whole: real)
    requires 0.0 <= part <= whole && whole > 0.0
    ensures 0.0 <= part / whole <= 1.0 && (part / whole) * whole == part
  {
  }

  lemma {:induction false} AppendAssoc<T>(a: seq<T>, b: seq<T>, c: seq<T>)
    ensures (a + b) + c == a + (b + c)
  {
  }

  /** Lexicographic `<=` on strings (Rust's `Ord` for `String` on ASCII text). */
  predicate LexLe(a: string, b: string)
    decreases |a|
  {
    a == [] || (b != [] && (a[0] < b[0] || (a[0] == b[0] && LexLe(a[1..], b[1..]))))
  }

  lemma {:induction false} LexLeTotal(a: string, b: string)
    ensures LexLe(a, b) || LexLe(b, a)
    decreases |a|
  {
    if a != [] && b != [] && a[0] == b[0] {
      LexLeTotal(a[1..], b[1..]);
    }
  }

  lemma {:induction false} LexLeTrans(a: string, b: string, c: string)
    requires LexLe(a, b) && LexLe(b, c)
    ensures LexLe(a, c)
    decreases |a|
  {
    if a != [] && b != [] && c != [] && a[0] == b[0] && b[0] == c[0] {
      LexLeTrans(a[1..], b[1..], c[1..]);
    }
  }
}
