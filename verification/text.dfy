/**
 * String helpers standing in for Foundation: Swift's `String` ordering (as used by
 * `sorted()`), `joined(separator:)`, `localizedCaseInsensitiveContains` and integer
 * interpolation `"\(n)"`.
 */
module Text {

  /** Strict lexicographic order on characters: Swift's `a < b` on strings, without normalisation. */
  predicate Below(a: string, b: string) {
    if a == [] then b != []
    else if b == [] then false
    else if a[0] != b[0] then a[0] < b[0]
    else Below(a[1..], b[1..])
  }

  /** For distinct strings exactly one is below the other; no string is below itself. */
  lemma {:induction false} BelowTrichotomy(a: string, b: string)
    ensures a == b ==> !Below(a, b)
    ensures a != b ==> (Below(a, b) <==> !Below(b, a))
  {
    if a != [] && b != [] && a[0] == b[0] {
      BelowTrichotomy(a[1..], b[1..]);
      if a != b {
        assert a == [a[0]] + a[1..] && b == [b[0]] + b[1..];
      }
    }
  }

  /**
   * Splitting at the first separator: two strings joined around one separator character,
   * whose left parts do not contain it, determine both parts.
   */
  lemma SplitAtSeparator(x1: string, x2: string, y1: string, y2: string, sep: char)
    requires sep !in x1 && sep !in y1
    requires x1 + [sep] + x2 == y1 + [sep] + y2
    ensures x1 == y1 && x2 == y2
  {
    var s := x1 + [sep] + x2;
    // The first separator of `s` sits right after the left part, on either reading.
    assert s[|x1|] == sep && forall i :: 0 <= i < |x1| ==> s[i] == x1[i] != sep;
    assert s[|y1|] == sep && forall i :: 0 <= i < |y1| ==> s[i] == y1[i] != sep;
    assert x1 == s[..|x1|] == y1;
    assert x2 == s[|x1| + 1..] == y2;
  }

  /** Swift's `joined(separator:)`. */
  function Join(parts: seq<string>, sep: string): (r: string)
    ensures |parts| == 1 ==> r == parts[0]
    ensures |parts| == 2 ==> r == parts[0] + sep + parts[1]
  {
    if |parts| == 0 then ""
    else if |parts| == 1 then parts[0]
    else parts[0] + sep + Join(parts[1..], sep)
  }

  /** ASCII case folding, the model of the locale-aware comparison. */
  function LowerChar(c: char): char {
    if 'A' <= c <= 'Z' then (c as int - 'A' as int + 'a' as int) as char else c
  }

  function Lower(s: string): (r: string)
    ensures |r| == |s|
    ensures forall i :: 0 <= i < |s| ==> r[i] == LowerChar(s[i])
  {
    seq(|s|, i requires 0 <= i < |s| => LowerChar(s[i]))
  }

  predicate OccursAt(hay: string, needle: string, i: nat) {
    i + |needle| <= |hay| && hay[i..i + |needle|] == needle
  }

  /**
   * `hay.localizedCaseInsensitiveContains(needle)`. Like Foundation, an empty needle is
   * never contained.
   */
  predicate ContainsIgnoringCase(hay: string, needle: string) {
    needle != [] && exists i: nat :: i <= |hay| && OccursAt(Lower(hay), Lower(needle), i)
  }

  /** A string contains every non-empty piece of itself. */
  lemma ContainsOwnPiece(hay: string, i: nat, j: nat)
    requires i < j <= |hay|
    ensures ContainsIgnoringCase(hay, hay[i..j])
  {
    assert Lower(hay)[i..j] == Lower(hay[i..j]);
    assert OccursAt(Lower(hay), Lower(hay[i..j]), i);
  }

  function DigitChar(d: nat): (c: char)
    requires d < 10
    ensures '0' <= c <= '9'
  {
    ('0' as int + d) as char
  }

  /** Decimal rendering, Swift's `"\(n)"` for a non-negative `Int`. */
  function NatToString(n: nat): (r: string)
    ensures |r| >= 1
    ensures forall i :: 0 <= i < |r| ==> '0' <= r[i] <= '9'
    ensures n >= 10 ==> |r| >= 2
  {
    if n < 10 then [DigitChar(n)] else NatToString(n / 10) + [DigitChar(n % 10)]
  }

  /** Distinct numbers render to distinct strings. */
  lemma {:induction false} NatToStringInjective(n: nat, m: nat)
    requires NatToString(n) == NatToString(m)
    ensures n == m
  {
    var s := NatToString(n);
    if n >= 10 && m >= 10 {
      assert s[..|s| - 1] == NatToString(n / 10) == NatToString(m / 10);
      NatToStringInjective(n / 10, m / 10);
      assert n % 10 == m % 10 by { assert s[|s| - 1] == DigitChar(n % 10) == DigitChar(m % 10); }
    }
  }
}
