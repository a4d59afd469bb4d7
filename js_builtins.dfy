/** The JavaScript built-ins the scorer calls: String.prototype.toLowerCase,
    String.prototype.includes, Array.prototype.slice(0, n), Array.prototype.join
    and Math.round / Math.min / Math.max on the values the scorer feeds them. */
module JsBuiltins {

  function Min(a: int, b: int): int { if a <= b then a else b }

  function Max(a: int, b: int): int { if a >= b then a else b }

  predicate IsAsciiUpper(c: char) { 'A' <= c <= 'Z' }

  /** True when no character of `s` is an ASCII capital letter. */
  predicate NoAsciiUpper(s: string) {
    forall i :: 0 <= i < |s| ==> !IsAsciiUpper(s[i])
  }

  function LowerChar(c: char): (d: char)
    ensures IsAsciiUpper(c) ==> d == (c as int + 32) as char
    ensures !IsAsciiUpper(c) ==> d == c
    ensures !IsAsciiUpper(d)
  {
    if IsAsciiUpper(c) then (c as int + 32) as char else c
  }

  /** `s.toLowerCase()`, restricted to the ASCII letters. */
  function ToLowerCase(s: string): (r: string)
    ensures |r| == |s|
    ensures forall i :: 0 <= i < |s| && IsAsciiUpper(s[i]) ==> r[i] == (s[i] as int + 32) as char
    ensures forall i :: 0 <= i < |s| && !IsAsciiUpper(s[i]) ==> r[i] == s[i]
    ensures NoAsciiUpper(r)
  {
    seq(|s|, i requires 0 <= i < |s| => LowerChar(s[i]))
  }

  /** Lower-casing leaves a string without capitals unchanged; in particular
      lower-casing is idempotent. */
  lemma LowerCaseIdentity(s: string)
    requires NoAsciiUpper(s)
    ensures ToLowerCase(s) == s
  {
  }

  /** `sub` occurs in `text` starting at index `i`. */
  ghost predicate OccursAt(text: string, sub: string, i: int) {
    0 <= i && i + |sub| <= |text| && text[i..i + |sub|] == sub
  }

  /** `text.includes(sub)`: plain substring containment, with no notion of words. */
  function Includes(text: string, sub: string): (b: bool)
    ensures b <==> exists i :: OccursAt(text, sub, i)
    decreases |text|
  {
    if |sub| > |text| then
      (assert forall i :: !OccursAt(text, sub, i); false)
    else if sub <= text then
      (assert text[0..|sub|] == sub; assert OccursAt(text, sub, 0); true)
    else
      IncludesShift(text, sub);
      Includes(text[1..], sub)
  }

  /** When `sub` is not a prefix of `text`, it occurs in `text` exactly when it
      occurs in `text` without its first character. */
  lemma IncludesShift(text: string, sub: string)
    requires |sub| <= |text| && !(sub <= text)
    ensures (exists i :: OccursAt(text[1..], sub, i)) <==> (exists i :: OccursAt(text, sub, i))
  {
    if i :| OccursAt(text[1..], sub, i) {
      assert text[1..][i..i + |sub|] == text[i + 1..i + 1 + |sub|];
      assert OccursAt(text, sub, i + 1);
    }
    if i :| OccursAt(text, sub, i) {
      assert i > 0;
      assert text[1..][i - 1..i - 1 + |sub|] == text[i..i + |sub|];
      assert OccursAt(text[1..], sub, i - 1);
    }
  }

  /** `xs.slice(0, n)`: the first min(n, |xs|) entries, in order. */
  function Slice<T>(xs: seq<T>, n: nat): (r: seq<T>)
    ensures |r| == Min(n, |xs|)
    ensures forall i :: 0 <= i < |r| ==> r[i] == xs[i]
  {
    if n <= |xs| then xs[..n] else xs
  }

  /** `xs.join(sep)`. */
  function Join(xs: seq<string>, sep: string): string
  {
    if |xs| == 0 then ""
    else if |xs| == 1 then xs[0]
    else xs[0] + sep + Join(xs[1..], sep)
  }

  /** An occurrence inside `b` is an occurrence inside `a + b`, shifted by `|a|`. */
  lemma OccursAtAppend(a: string, b: string, sub: string, k: int)
    requires OccursAt(b, sub, k)
    ensures OccursAt(a + b, sub, |a| + k)
  {
    assert (a + b)[|a| + k..|a| + k + |sub|] == b[k..k + |sub|];
  }

  /** Containment is transitive: an occurrence inside an occurrence. */
  lemma OccursAtNested(text: string, mid: string, sub: string, p: int, k: int)
    requires OccursAt(text, mid, p) && OccursAt(mid, sub, k)
    ensures OccursAt(text, sub, p + k)
  {
    forall j | 0 <= j < |sub|
      ensures text[p + k + j] == sub[j]
    {
      assert mid[k + j] == mid[k..k + |sub|][j];
      assert text[p + k + j] == text[p..p + |mid|][k + j];
    }
    assert text[p + k..p + k + |sub|] == sub;
  }

  /** Every element of `xs` occurs in `xs.join(sep)`. */
  lemma {:induction false} JoinContainsEach(xs: seq<string>, sep: string)
    ensures forall i :: 0 <= i < |xs| ==> Includes(Join(xs, sep), xs[i])
    decreases |xs|
  {
    if |xs| == 1 {
      assert OccursAt(Join(xs, sep), xs[0], 0);
    } else if |xs| > 1 {
      var head := xs[0] + sep;
      var rest := Join(xs[1..], sep);
      assert Join(xs, sep) == head + rest;
      JoinContainsEach(xs[1..], sep);
      forall i | 0 <= i < |xs|
        ensures Includes(Join(xs, sep), xs[i])
      {
        if i == 0 {
          assert (head + rest)[..|xs[0]|] == xs[0];
          assert OccursAt(head + rest, xs[0], 0);
        } else {
          assert xs[1..][i - 1] == xs[i];
          assert Includes(rest, xs[i]);
          var k :| OccursAt(rest, xs[i], k);
          OccursAtAppend(head, rest, xs[i], k);
        }
      }
    }
  }

  /** `Math.round(num / den)`: the integer nearest to num/den, halves rounded up. */
  function Round(num: int, den: int): (r: int)
    requires den > 0
    ensures den * (2 * r - 1) <= 2 * num < den * (2 * r + 1)
  {
    var r := (2 * num + den) / (2 * den);
    DivBounds(2 * num + den, 2 * den);
    r
  }

  lemma DivBounds(n: int, d: int)
    requires d > 0
    ensures d * (n / d) <= n < d * (n / d) + d
  {
  }

  /** Math.round is determined by its bounds: at most one integer satisfies them. */
  lemma RoundUnique(num: int, den: int, r: int)
    requires den > 0
    requires den * (2 * r - 1) <= 2 * num < den * (2 * r + 1)
    ensures Round(num, den) == r
  {
    var q := Round(num, den);
    MulCancelLess(den, 2 * q - 1, 2 * r + 1);
    MulCancelLess(den, 2 * r - 1, 2 * q + 1);
  }

  /** A positive factor can be cancelled from a strict inequality. */
  lemma MulCancelLess(d: int, a: int, b: int)
    requires d > 0 && d * a < d * b
    ensures a < b
  {
    if a >= b {
      MulMonotone(d, b, a);
    }
  }

  lemma MulMonotone(d: int, a: int, b: int)
    requires d > 0 && a <= b
    ensures d * a <= d * b
  {
    assert d * b == d * a + d * (b - a);
  }
}
