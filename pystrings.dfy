/** The Python string operations the handler's error classification relies on,
    over Dafny strings (`seq<char>`). */
module PyStrings {

  /** `s.startswith(p)` */
  predicate StartsWith(s: string, p: string)
  {
    |p| <= |s| && s[..|p|] == p
  }

  /** Python's `sub in s`: `sub` occurs in `s` as a contiguous run. */
  predicate Contains(s: string, sub: string)
    decreases |s|
  {
    StartsWith(s, sub) || (|s| > 0 && Contains(s[1..], sub))
  }

  /** `sub` occurs in `s` starting at index `i`. */
  ghost predicate OccursAt(s: string, sub: string, i: int)
  {
    0 <= i && i + |sub| <= |s| && s[i..i + |sub|] == sub
  }

  /** The recursive test agrees with the positional definition of a substring, both ways. */
  lemma {:induction false} ContainsIffOccurs(s: string, sub: string)
    ensures Contains(s, sub) <==> exists i :: OccursAt(s, sub, i)
    decreases |s|
  {
    if Contains(s, sub) {
      if StartsWith(s, sub) {
        assert OccursAt(s, sub, 0);
      } else {
        ContainsIffOccurs(s[1..], sub);
        var i :| OccursAt(s[1..], sub, i);
        assert s[1..][i..i + |sub|] == s[i + 1..i + 1 + |sub|];
        assert OccursAt(s, sub, i + 1);
      }
    }
    if i :| OccursAt(s, sub, i) {
      if i == 0 {
        assert StartsWith(s, sub);
      } else {
        assert s[1..][i - 1..i - 1 + |sub|] == s[i..i + |sub|];
        assert OccursAt(s[1..], sub, i - 1);
        ContainsIffOccurs(s[1..], sub);
      }
    }
  }

  /** Every character of a contained string occurs in the containing one. */
  lemma {:induction false} ContainedCharOccurs(s: string, sub: string, c: char)
    requires Contains(s, sub) && c in sub
    ensures c in s
    decreases |s|
  {
    if StartsWith(s, sub) {
      assert c in s[..|sub|];
    } else {
      ContainedCharOccurs(s[1..], sub, c);
    }
  }

  /** `c.lower()` for ASCII letters; every other character is left alone. */
  function LowerChar(c: char): (r: char)
    ensures 'A' <= c <= 'Z' ==> 'a' <= r <= 'z' && r as int == c as int + 32
    ensures !('A' <= c <= 'Z') ==> r == c
  {
    if 'A' <= c <= 'Z' then (c as int + 32) as char else c
  }

  /** `s.lower()`, restricted to ASCII case mapping. */
  function Lower(s: string): (r: string)
    ensures |r| == |s|
    ensures forall i :: 0 <= i < |s| ==> r[i] == LowerChar(s[i])
  {
    if s == [] then [] else [LowerChar(s[0])] + Lower(s[1..])
  }

  /** Lower-casing distributes over concatenation. */
  lemma LowerAppend(a: string, b: string)
    ensures Lower(a + b) == Lower(a) + Lower(b)
  {
    assert forall i :: 0 <= i < |a + b| ==> Lower(a + b)[i] == (Lower(a) + Lower(b))[i];
  }

  /** A character that is neither `c` nor its upper-case form cannot appear as `c` after lower-casing. */
  lemma LowerKeepsCharOut(s: string, c: char)
    requires 'a' <= c <= 'z'
    requires c !in s && (c as int - 32) as char !in s
    ensures c !in Lower(s)
  {
    forall i | 0 <= i < |s|
      ensures Lower(s)[i] != c
    {
      assert s[i] in s;
    }
  }

  /** No `a` in `s` is directly followed by `b`. */
  predicate PairFree(s: string, a: char, b: char)
  {
    forall i :: 0 <= i < |s| - 1 ==> !(s[i] == a && s[i + 1] == b)
  }

  /** Every adjacent pair of a contained string occurs in the containing one. */
  lemma ContainedPairOccurs(s: string, sub: string, k: int)
    requires Contains(s, sub) && 0 <= k < |sub| - 1
    ensures !PairFree(s, sub[k], sub[k + 1])
  {
    ContainsIffOccurs(s, sub);
    var i :| OccursAt(s, sub, i);
    assert s[i..i + |sub|][k] == s[i + k] && s[i..i + |sub|][k + 1] == s[i + k + 1];
  }

  /** Two strings free of a pair stay free of it when joined, unless the join creates it. */
  lemma PairFreeAppend(x: string, y: string, a: char, b: char)
    requires PairFree(x, a, b) && PairFree(y, a, b)
    requires x != [] && y != [] ==> !(x[|x| - 1] == a && y[0] == b)
    ensures PairFree(x + y, a, b)
  {
    forall i | 0 <= i < |x + y| - 1
      ensures !((x + y)[i] == a && (x + y)[i + 1] == b)
    {
      if i < |x| - 1 {
        assert (x + y)[i] == x[i] && (x + y)[i + 1] == x[i + 1];
      } else if i >= |x| {
        assert (x + y)[i] == y[i - |x|] && (x + y)[i + 1] == y[i - |x| + 1];
      }
    }
  }

  /** Lower-casing creates no pair whose first character is not a letter and
      whose second is a lower-case letter, when neither case form of the pair occurs. */
  lemma LowerKeepsPairOut(s: string, a: char, b: char)
    requires !('A' <= a <= 'Z') && !('a' <= a <= 'z') && 'a' <= b <= 'z'
    requires PairFree(s, a, b) && PairFree(s, a, (b as int - 32) as char)
    ensures PairFree(Lower(s), a, b)
  {
  }

  predicate IsDigit(c: char)
  {
    '0' <= c <= '9'
  }

  /** `str(n)`: the decimal digits of `n`, most significant first. */
  function NatToDecimal(n: nat): (r: string)
    ensures |r| > 0
    ensures forall i :: 0 <= i < |r| ==> IsDigit(r[i])
    decreases n
  {
    if n < 10 then [('0' as int + n) as char]
    else NatToDecimal(n / 10) + [('0' as int + n % 10) as char]
  }

  /** The value a string of decimal digits denotes. */
  function DecimalValue(s: string): nat
    requires forall i :: 0 <= i < |s| ==> IsDigit(s[i])
  {
    if s == [] then 0
    else
      assert IsDigit(s[|s| - 1]);
      10 * DecimalValue(s[..|s| - 1]) + (s[|s| - 1] as int - '0' as int)
  }

  /** `int(str(n)) == n`. */
  lemma {:induction false} DecimalRoundTrip(n: nat)
    ensures DecimalValue(NatToDecimal(n)) == n
    decreases n
  {
    var r := NatToDecimal(n);
    if n >= 10 {
      assert r[..|r| - 1] == NatToDecimal(n / 10);
      DecimalRoundTrip(n / 10);
    }
  }
}
