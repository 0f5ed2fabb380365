/**
 * String helpers shared by the content scripts and the completion service:
 * `toLowerCase`, `endsWith`, `includes`, and the index picked by
 * `Math.floor(Math.random() * n)` for a given draw.
 */
module Text {

  /** The KELVIN SIGN, the one character outside ASCII that lowers to a single ASCII letter. */
  const KelvinSign: char := '\U{212A}'

  /**
   * JavaScript's `toLowerCase` on one character, for the ASCII letters and
   * the KELVIN SIGN, which lowers to `k`.
   */
  function LowerChar(c: char): (d: char)
    ensures 'A' <= c <= 'Z' ==> d as int == c as int + 32
    ensures c == KelvinSign ==> d == 'k'
    ensures !('A' <= c <= 'Z') && c != KelvinSign ==> d == c
    ensures 'a' <= d <= 'z' <==> 'a' <= c <= 'z' || 'A' <= c <= 'Z' || c == KelvinSign
  {
    if 'A' <= c <= 'Z' then (c as int + 32) as char
    else if c == KelvinSign then 'k'
    else c
  }

  /** JavaScript's `toLowerCase`: the same length, each character lowered. */
  function Lower(s: string): (r: string)
    ensures |r| == |s|
    ensures forall i :: 0 <= i < |s| ==> r[i] == LowerChar(s[i])
  {
    seq(|s|, i requires 0 <= i < |s| => LowerChar(s[i]))
  }

  /** Lower-casing leaves every character of `s` as it is. */
  predicate IsLowerCase(s: string) {
    forall i :: 0 <= i < |s| ==> LowerChar(s[i]) == s[i]
  }

  lemma {:induction false} LowerConcat(a: string, b: string)
    ensures Lower(a + b) == Lower(a) + Lower(b)
  {
    var l, r := Lower(a + b), Lower(a) + Lower(b);
    assert |l| == |r|;
    forall i | 0 <= i < |l| ensures l[i] == r[i] {
      if i < |a| { assert (a + b)[i] == a[i]; } else { assert (a + b)[i] == b[i - |a|]; }
    }
  }

  /** JavaScript's `s.endsWith(t)`. */
  predicate EndsWith(s: string, t: string) {
    |t| <= |s| && s[|s| - |t|..] == t
  }

  /** `t` occurs in `s` starting at offset `i`. */
  predicate OccursAt(s: string, t: string, i: int) {
    0 <= i <= |s| - |t| && s[i..i + |t|] == t
  }

  /** JavaScript's `s.includes(t)`: `t` occurs in `s` at some offset. */
  predicate Contains(s: string, t: string) {
    exists i :: 0 <= i <= |s| - |t| && OccursAt(s, t, i)
  }

  /**
   * `Math.floor(r * n)` for a draw `r` in [0, 1): always a valid index
   * into a list of `n > 0` entries.
   */
  function PickIndex(r: real, n: nat): (i: nat)
    requires 0.0 <= r < 1.0 && n > 0
    ensures i < n
    ensures i as real <= r * n as real < i as real + 1.0
  {
    assert r * n as real < n as real;
    (r * n as real).Floor
  }
}
