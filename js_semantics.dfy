/**
 * The JavaScript built-ins that the weather formatters rely on, on exact
 * numbers: `Math.round`, the remainder operator `%`, `String.prototype.includes`
 * and `Array.prototype.findIndex`.
 */
module JsSemantics {

  /** `n` is the integer nearest to `x`, a half rounded towards +infinity. */
  predicate RoundsTo(x: real, n: int)
  {
    n as real - 0.5 <= x < n as real + 0.5
  }

  /** `Math.round`. */
  function Round(x: real): (r: int)
    ensures RoundsTo(x, r)
  {
    (x + 0.5).Floor
  }

  /** The rounding interval determines the rounded value. */
  lemma {:induction false} RoundUnique(x: real, n: int)
    requires RoundsTo(x, n)
    ensures Round(x) == n
  {
  }

  lemma {:induction false} RoundMonotone(x: real, y: real)
    requires x <= y
    ensures Round(x) <= Round(y)
  {
  }

  /** Shifting by a whole number shifts the rounded value by the same amount. */
  lemma {:induction false} RoundShift(x: real, n: int)
    ensures Round(x + n as real) == Round(x) + n
  {
    RoundUnique(x + n as real, Round(x) + n);
  }

  /**
   * JavaScript's `a % m` on integers: the remainder of the division truncated
   * towards zero, so it takes the sign of `a` (Dafny's `%` is Euclidean).
   */
  function TruncRem(a: int, m: int): (r: int)
    requires m > 0
    ensures -m < r < m
    ensures a >= 0 ==> 0 <= r
    ensures a <= 0 ==> r <= 0
    ensures a == m * TruncQuot(a, m) + r
  {
    if a >= 0 then a % m else -((-a) % m)
  }

  /** The quotient truncated towards zero, `Math.trunc(a / m)`. */
  function TruncQuot(a: int, m: int): int
    requires m > 0
  {
    if a >= 0 then a / m else -((-a) / m)
  }

  /** `s[i..]` starts with `sub`. */
  predicate OccursAt(s: string, sub: string, i: int)
  {
    0 <= i && i + |sub| <= |s| && s[i..i + |sub|] == sub
  }

  /** `s.includes(sub)`: `sub` occurs in `s` at some position (the empty string occurs everywhere). */
  function Includes(s: string, sub: string): (b: bool)
    decreases |s|
  {
    |sub| <= |s| && (s[..|sub|] == sub || Includes(s[1..], sub))
  }

  /** `Includes` holds exactly when some window of `s` equals `sub`. */
  lemma {:induction false} IncludesIffOccurs(s: string, sub: string)
    ensures Includes(s, sub) <==> exists i :: OccursAt(s, sub, i)
    decreases |s|
  {
    if |sub| <= |s| && s[..|sub|] != sub {
      IncludesIffOccurs(s[1..], sub);
      if Includes(s[1..], sub) {
        var i :| OccursAt(s[1..], sub, i);
        assert s[i + 1..i + 1 + |sub|] == s[1..][i..i + |sub|];
        assert OccursAt(s, sub, i + 1);
      }
      if i :| OccursAt(s, sub, i) {
        assert i != 0;
        assert s[1..][i - 1..i - 1 + |sub|] == s[i..i + |sub|];
        assert OccursAt(s[1..], sub, i - 1);
      }
    } else if |sub| <= |s| {
      assert OccursAt(s, sub, 0);
    }
  }

  /** A window that equals `sub` makes `Includes` true. */
  lemma {:induction false} IncludesAt(s: string, sub: string, i: int)
    requires OccursAt(s, sub, i)
    ensures Includes(s, sub)
  {
    IncludesIffOccurs(s, sub);
  }

  /**
   * `s.findIndex(p)`: the first index whose element and index satisfy `p`,
   * or -1 when there is none.
   */
  function FindIndex<T>(s: seq<T>, p: (T, nat) -> bool): (r: int)
    ensures r == -1 || 0 <= r < |s|
    ensures r == -1 ==> forall j :: 0 <= j < |s| ==> !p(s[j], j)
    ensures r >= 0 ==> p(s[r], r) && forall j :: 0 <= j < r ==> !p(s[j], j)
  {
    FindIndexFrom(s, p, 0)
  }

  function FindIndexFrom<T>(s: seq<T>, p: (T, nat) -> bool, from: nat): (r: int)
    requires from <= |s|
    ensures r == -1 || from <= r < |s|
    ensures r == -1 ==> forall j :: from <= j < |s| ==> !p(s[j], j)
    ensures r >= 0 ==> p(s[r], r) && forall j :: from <= j < r ==> !p(s[j], j)
    decreases |s| - from
  {
    if from == |s| then -1
    else if p(s[from], from) then from
    else FindIndexFrom(s, p, from + 1)
  }
}
