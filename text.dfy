/**
 * The JavaScript string operations the backends rely on: `includes`,
 * `toLowerCase`, `Array.prototype.join`, and the decimal rendering of
 * integers and of `toFixed(2)` on prices held as integer cents.
 */
module Text {

  /** `t` sits in `s` starting at index `i`. */
  predicate OccursAt(s: string, t: string, i: nat)
  {
    i + |t| <= |s| && s[i..i + |t|] == t
  }

  /** `s.includes(t)`: some index of `s` starts an occurrence of `t`. */
  predicate Includes(s: string, t: string)
  {
    exists i: nat :: i <= |s| && OccursAt(s, t, i)
  }

  lemma IncludesSelf(s: string)
    ensures Includes(s, s)
  {
    assert OccursAt(s, s, 0);
  }

  /** The first and the last of three concatenated strings occur in the whole. */
  lemma IncludesEnds(a: string, b: string, c: string)
    ensures Includes(a + b + c, a)
    ensures Includes(a + b + c, c)
  {
    assert OccursAt(a + b + c, a, 0);
    assert OccursAt(a + b + c, c, |a + b|);
  }

  /** The second and the fourth of six concatenated strings occur in the whole. */
  lemma IncludesEvenPieces(a: string, b: string, c: string, d: string, e: string, f: string)
    ensures Includes(a + b + c + d + e + f, b)
    ensures Includes(a + b + c + d + e + f, d)
  {
    assert OccursAt(a + b + c + d + e + f, b, |a|);
    assert OccursAt(a + b + c + d + e + f, d, |a + b + c|);
  }

  /** An occurrence of an occurrence is an occurrence. */
  lemma {:induction false} IncludesTransitive(s: string, m: string, t: string)
    requires Includes(s, m) && Includes(m, t)
    ensures Includes(s, t)
  {
    var i: nat :| i <= |s| && OccursAt(s, m, i);
    var j: nat :| j <= |m| && OccursAt(m, t, j);
    assert m == s[i..i + |m|];
    forall k | 0 <= k < |t|
      ensures s[i + j..i + j + |t|][k] == t[k]
    {
      assert t[k] == m[j + k] == s[i + j + k];
    }
    assert OccursAt(s, t, i + j);
  }

  /** ASCII upper-case letters map to lower case; every other character is kept. */
  function LowerChar(c: char): (r: char)
    ensures 'A' <= c <= 'Z' ==> r as int == c as int + 32
    ensures !('A' <= c <= 'Z') ==> r == c
    ensures !('A' <= r <= 'Z')
  {
    if 'A' <= c <= 'Z' then (c as int + 32) as char else c
  }

  /** `s.toLowerCase()` restricted to ASCII letters. */
  function Lower(s: string): (r: string)
    ensures |r| == |s|
    ensures forall i :: 0 <= i < |s| ==> r[i] == LowerChar(s[i])
  {
    seq(|s|, i requires 0 <= i < |s| => LowerChar(s[i]))
  }

  lemma LowerIdempotent(s: string)
    ensures Lower(Lower(s)) == Lower(s)
  {
    assert forall i :: 0 <= i < |s| ==> Lower(Lower(s))[i] == Lower(s)[i];
  }

  /** `parts.join(sep)`. */
  function Join(sep: string, parts: seq<string>): string
  {
    if |parts| == 0 then ""
    else if |parts| == 1 then parts[0]
    else parts[0] + sep + Join(sep, parts[1..])
  }

  /** Every part of a join is found verbatim in the joined text. */
  lemma {:induction false} JoinIncludesPart(sep: string, parts: seq<string>, k: nat)
    requires k < |parts|
    ensures Includes(Join(sep, parts), parts[k])
  {
    if |parts| == 1 {
      IncludesSelf(parts[0]);
    } else {
      var rest := Join(sep, parts[1..]);
      IncludesEnds(parts[0], sep, rest);
      if k > 0 {
        JoinIncludesPart(sep, parts[1..], k - 1);
        IncludesTransitive(Join(sep, parts), rest, parts[k]);
      }
    }
  }

  function DigitChar(d: nat): (r: char)
    requires d < 10
    ensures '0' <= r <= '9'
  {
    ('0' as int + d) as char
  }

  /** Decimal digits of a natural number, without leading zeros. */
  function NatToString(n: nat): (r: string)
    ensures |r| >= 1
    ensures forall i :: 0 <= i < |r| ==> '0' <= r[i] <= '9'
  {
    if n < 10 then [DigitChar(n)] else NatToString(n / 10) + [DigitChar(n % 10)]
  }

  /** `String(n)` for an integer number. */
  function IntToString(n: int): string
  {
    if n < 0 then "-" + NatToString(-n) else NatToString(n)
  }

  /** `(cents / 100).toFixed(2)` for an amount held as integer cents. */
  function CentsToFixed2(cents: int): (r: string)
    ensures |r| >= 4 && r[|r| - 3] == '.'
  {
    var a: nat := if cents < 0 then -cents else cents;
    var body := NatToString(a / 100) + "." + [DigitChar(a % 100 / 10), DigitChar(a % 10)];
    if cents < 0 then "-" + body else body
  }

}
