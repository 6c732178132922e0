/**
 * The few JavaScript string operations the client layer relies on:
 * decimal printing of integers, `String.prototype.includes`, and the
 * `replace(/\/+$/, '')` that trims trailing slashes from a base URL.
 */
module JsStrings {

  predicate IsDigit(c: char) { '0' <= c <= '9' }

  function Digit(d: nat): (c: char)
    requires d < 10
    ensures IsDigit(c) && c as int - '0' as int == d
  {
    ('0' as int + d) as char
  }

  /** Decimal text of a natural number, as `String(n)` prints it. */
  function NatToString(n: nat): (s: string)
    ensures |s| >= 1
    ensures forall i :: 0 <= i < |s| ==> IsDigit(s[i])
    ensures s[0] == '0' ==> n == 0
    ensures |s| == 1 <==> n < 10
  {
    if n < 10 then [Digit(n)] else NatToString(n / 10) + [Digit(n % 10)]
  }

  /** Different numbers print differently: the decimal text names its number. */
  lemma {:induction false} NatToStringInjective(a: nat, b: nat)
    requires NatToString(a) == NatToString(b)
    ensures a == b
  {
    var s := NatToString(a);
    if a >= 10 {
      assert b >= 10;
      var n := |s| - 1;
      assert s[..n] == NatToString(a / 10) && s[..n] == NatToString(b / 10);
      assert Digit(a % 10) == s[n] == Digit(b % 10);
      NatToStringInjective(a / 10, b / 10);
    } else {
      assert Digit(a) == s[0] == Digit(b);
    }
  }

  /** Decimal text of an integer, with a leading `-` for negative numbers. */
  function IntToString(n: int): (s: string)
    ensures |s| >= 1
    ensures (s[0] == '-') <==> n < 0
  {
    if n < 0 then "-" + NatToString(-n) else NatToString(n)
  }

  /** `s.includes(sub)`: `sub` occurs in `s` at some position. */
  function Includes(s: string, sub: string): bool
    decreases |s|
  {
    if |sub| > |s| then false
    else if s[..|sub|] == sub then true
    else Includes(s[1..], sub)
  }

  /** The position-based meaning of `Includes`. */
  ghost predicate OccursAt(s: string, sub: string, i: int) {
    0 <= i && i + |sub| <= |s| && s[i..i + |sub|] == sub
  }

  lemma {:induction false} IncludesMeansOccurrence(s: string, sub: string)
    ensures Includes(s, sub) <==> exists i :: OccursAt(s, sub, i)
    decreases |s|
  {
    if |sub| <= |s| && s[..|sub|] == sub {
      assert OccursAt(s, sub, 0);
    } else if |sub| <= |s| {
      IncludesMeansOccurrence(s[1..], sub);
      if exists i :: OccursAt(s[1..], sub, i) {
        var i :| OccursAt(s[1..], sub, i);
        assert s[1..][i..i + |sub|] == s[i + 1..i + 1 + |sub|];
        assert OccursAt(s, sub, i + 1);
      }
      if exists i :: OccursAt(s, sub, i) {
        var i :| OccursAt(s, sub, i);
        assert i != 0;
        assert s[1..][i - 1..i - 1 + |sub|] == s[i..i + |sub|];
        assert OccursAt(s[1..], sub, i - 1);
      }
    }
  }

  /** Every character of `s` is a slash. */
  predicate AllSlashes(s: string) {
    forall i :: 0 <= i < |s| ==> s[i] == '/'
  }

  predicate EndsWithSlash(s: string) {
    |s| > 0 && s[|s| - 1] == '/'
  }

  /**
   * `s.replace(/\/+$/, '')`: the leftmost match of "one or more slashes at
   * the end of input" is the whole trailing run of slashes, which is removed.
   * The result is a prefix of `s`, does not end with a slash, and what was
   * removed is nothing but slashes.
   */
  function TrimTrailingSlashes(s: string): (r: string)
    ensures r <= s
    ensures !EndsWithSlash(r)
    ensures AllSlashes(s[|r|..])
  {
    if EndsWithSlash(s) then TrimTrailingSlashes(s[..|s| - 1]) else s
  }

  /** The three properties above determine the trimmed string. */
  lemma {:induction false} TrimIsUnique(p: string, slashes: string)
    requires !EndsWithSlash(p) && AllSlashes(slashes)
    ensures TrimTrailingSlashes(p + slashes) == p
    decreases |slashes|
  {
    if slashes == [] {
      assert p + slashes == p;
    } else {
      var shorter := slashes[..|slashes| - 1];
      assert (p + slashes)[..|p + slashes| - 1] == p + shorter;
      TrimIsUnique(p, shorter);
    }
  }

  /** Appending any run of slashes to a trimmed string trims back to it. */
  lemma TrimAbsorbsSlashes(s: string, slashes: string)
    requires AllSlashes(slashes)
    ensures TrimTrailingSlashes(TrimTrailingSlashes(s) + slashes) == TrimTrailingSlashes(s)
  {
    TrimIsUnique(TrimTrailingSlashes(s), slashes);
  }
}
