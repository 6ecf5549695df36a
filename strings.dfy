/**
 * The string operations the client and the bridge rely on, stated as the
 * JavaScript built-ins behave: `String.prototype.indexOf`, ASCII lower-casing
 * (the only case folding the bridge's case-insensitive patterns can observe)
 * and the decimal form of an integer.
 */
module Strings {

  /** `p` occurs in `s` starting at index `i`. */
  predicate OccursAt(s: string, p: string, i: nat) {
    i + |p| <= |s| && s[i..i + |p|] == p
  }

  /** `p` occurs somewhere in `s`. */
  ghost predicate Occurs(s: string, p: string) {
    exists i: nat :: OccursAt(s, p, i)
  }

  /**
   * `s.indexOf(p, from)` for a start within the string (JavaScript clamps a
   * larger one to `|s|`): the first index at or after `from` where `p` occurs, or -1.
   */
  function IndexOfFrom(s: string, p: string, from: nat): (r: int)
    requires from <= |s|
    ensures r == -1 || (from <= r && OccursAt(s, p, r))
    ensures r == -1 ==> forall i: nat :: from <= i ==> !OccursAt(s, p, i)
    ensures r != -1 ==> forall i: nat :: from <= i < r ==> !OccursAt(s, p, i)
    decreases |s| - from
  {
    if from + |p| > |s| then -1
    else if s[from..from + |p|] == p then from
    else IndexOfFrom(s, p, from + 1)
  }

  /** `s.indexOf(p)`. */
  function IndexOf(s: string, p: string): int {
    IndexOfFrom(s, p, 0)
  }

  /** `s.indexOf(p)` is -1 exactly when `p` does not occur in `s`, and otherwise the first occurrence. */
  lemma IndexOfFindsFirst(s: string, p: string)
    ensures IndexOf(s, p) >= 0 <==> Occurs(s, p)
    ensures IndexOf(s, p) >= 0 ==> OccursAt(s, p, IndexOf(s, p))
    ensures forall i: nat :: i < IndexOf(s, p) ==> !OccursAt(s, p, i)
  {
    var r := IndexOf(s, p);
    if r >= 0 {
      assert OccursAt(s, p, r as nat);
    }
  }

  /** The idiom `!s.indexOf(p)` is true exactly when `p` is a prefix of `s`. */
  lemma IndexOfZeroIsPrefix(s: string, p: string)
    ensures IndexOf(s, p) == 0 <==> p <= s
  {
    if p <= s {
      assert s[0..|p|] == p;
    }
    if IndexOf(s, p) == 0 {
      assert OccursAt(s, p, 0);
    }
  }

  function LowerChar(c: char): char {
    if 'A' <= c <= 'Z' then (c as int + 32) as char else c
  }

  /** ASCII lower-casing, character by character. */
  function Lower(s: string): (r: string)
    ensures |r| == |s|
    ensures forall i :: 0 <= i < |s| ==> r[i] == LowerChar(s[i])
  {
    seq(|s|, i requires 0 <= i < |s| => LowerChar(s[i]))
  }

  function Digit(d: int): char
    requires 0 <= d < 10
  {
    "0123456789"[d]
  }

  /** The decimal digits of `n`, most significant first. */
  function NatToDecimal(n: nat): (r: string)
    ensures |r| >= 1
    ensures forall i :: 0 <= i < |r| ==> '0' <= r[i] <= '9'
  {
    if n < 10 then [Digit(n)] else NatToDecimal(n / 10) + [Digit(n % 10)]
  }

  /** `String(n)` for an integer `n`. */
  function IntToDecimal(n: int): (r: string)
    ensures r != ""
    ensures n < 0 <==> r[0] == '-'
  {
    if n < 0 then "-" + NatToDecimal(-n) else NatToDecimal(n)
  }
}
