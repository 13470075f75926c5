/**
 * String helpers shared by the model: ASCII case mapping, substring search,
 * JavaScript `slice` and `join`/`split`, decimal printing and parsing.
 * Strings are sequences of characters; `toLowerCase`, `to_lowercase` and
 * `to_uppercase` are modelled on ASCII letters only.
 */
module Text {
  import opened Wrappers

  // ---------------------------------------------------------------------
  // Case mapping
  // ---------------------------------------------------------------------

  function LowerChar(c: char): char
  {
    if 'A' <= c <= 'Z' then (c as int + 32) as char else c
  }

  function UpperChar(c: char): char
  {
    if 'a' <= c <= 'z' then (c as int - 32) as char else c
  }

  /** `s.toLowerCase()` on ASCII letters. */
  function Lower(s: string): (r: string)
    ensures |r| == |s|
    ensures forall i :: 0 <= i < |s| ==> r[i] == LowerChar(s[i])
  {
    seq(|s|, i requires 0 <= i < |s| => LowerChar(s[i]))
  }

  /** `s.to_uppercase()` on ASCII letters. */
  function Upper(s: string): (r: string)
    ensures |r| == |s|
    ensures forall i :: 0 <= i < |s| ==> r[i] == UpperChar(s[i])
  {
    seq(|s|, i requires 0 <= i < |s| => UpperChar(s[i]))
  }

  lemma LowerIdempotent(s: string)
    ensures Lower(Lower(s)) == Lower(s)
  {
    assert forall i :: 0 <= i < |s| ==> Lower(Lower(s))[i] == Lower(s)[i];
  }

  lemma UpperIdempotent(s: string)
    ensures Upper(Upper(s)) == Upper(s)
  {
    assert forall i :: 0 <= i < |s| ==> Upper(Upper(s))[i] == Upper(s)[i];
  }

  lemma LowerAppend(a: string, b: string)
    ensures Lower(a + b) == Lower(a) + Lower(b)
  {
    assert forall i :: 0 <= i < |a + b| ==> Lower(a + b)[i] == (Lower(a) + Lower(b))[i];
  }

  lemma LowerSlice(s: string, i: int, j: int)
    requires 0 <= i <= j <= |s|
    ensures Lower(s[i..j]) == Lower(s)[i..j]
  {
    assert forall k :: 0 <= k < j - i ==> Lower(s[i..j])[k] == Lower(s)[i..j][k];
  }

  // ---------------------------------------------------------------------
  // Substring search (`indexOf`, `includes`, `contains`)
  // ---------------------------------------------------------------------

  /** `p` occurs in `s` starting at index `j`. */
  predicate OccursAt(s: string, p: string, j: int)
  {
    0 <= j && j + |p| <= |s| && s[j..j + |p|] == p
  }

  /** The first index at or after `from` where `p` occurs in `s`, or -1. */
  function IndexOfFrom(s: string, p: string, from: nat): (r: int)
    ensures r == -1 || (from <= r && OccursAt(s, p, r))
    ensures r >= 0 ==> forall j :: from <= j < r ==> !OccursAt(s, p, j)
    ensures r == -1 ==> forall j :: from <= j ==> !OccursAt(s, p, j)
    decreases |s| - from
  {
    if from + |p| > |s| then -1
    else if s[from..from + |p|] == p then from
    else IndexOfFrom(s, p, from + 1)
  }

  /** JavaScript `s.indexOf(p)`: the first occurrence of `p` in `s`, or -1. */
  function IndexOf(s: string, p: string): int
  {
    IndexOfFrom(s, p, 0)
  }

  /** `s.includes(p)` / `s.contains(p)`. */
  predicate Contains(s: string, p: string)
  {
    IndexOf(s, p) >= 0
  }

  lemma ContainsIff(s: string, p: string)
    ensures Contains(s, p) <==> exists j :: OccursAt(s, p, j)
  {
    if !Contains(s, p) {
      assert forall j :: 0 <= j ==> !OccursAt(s, p, j);
    }
  }

  lemma ContainsWitness(s: string, p: string, j: int)
    requires OccursAt(s, p, j)
    ensures Contains(s, p)
  {
    ContainsIff(s, p);
  }

  lemma ContainsEmpty(s: string)
    ensures Contains(s, "")
  {
    assert OccursAt(s, "", 0);
    ContainsWitness(s, "", 0);
  }

  /** A one-character needle occurs exactly when the character is in the string. */
  lemma ContainsChar(s: string, c: char)
    ensures Contains(s, [c]) <==> c in s
  {
    ContainsIff(s, [c]);
    if c in s {
      var j :| 0 <= j < |s| && s[j] == c;
      assert OccursAt(s, [c], j);
    }
    if Contains(s, [c]) {
      var j :| OccursAt(s, [c], j);
      assert s[j] == s[j..j + 1][0];
    }
  }

  /** `indexOf` of a single character: its first position, or -1 when absent. */
  lemma IndexOfChar(s: string, c: char)
    ensures IndexOf(s, [c]) == -1 <==> c !in s
    ensures IndexOf(s, [c]) >= 0 ==> IndexOf(s, [c]) < |s| && s[IndexOf(s, [c])] == c && c !in s[..IndexOf(s, [c])]
  {
    var k := IndexOf(s, [c]);
    ContainsChar(s, c);
    if k >= 0 {
      assert s[k] == s[k..k + 1][0];
      forall j | 0 <= j < k ensures s[j] != c {
        assert !OccursAt(s, [c], j);
        assert s[j..j + 1][0] == s[j];
      }
    }
  }

  lemma ContainsShorter(s: string, p: string)
    requires Contains(s, p)
    ensures |p| <= |s|
  {
  }

  /** A character inside an occurrence of `p` is a character of `p`. */
  lemma WindowChar(s: string, p: string, j: int, k: int)
    requires OccursAt(s, p, j) && j <= k < j + |p|
    ensures s[k] in p
  {
    assert s[k] == s[j..j + |p|][k - j];
  }

  /** Every character of a contained pattern occurs in the string. */
  lemma ContainsCharOf(s: string, p: string, k: int)
    requires Contains(s, p) && 0 <= k < |p|
    ensures p[k] in s
  {
    ContainsIff(s, p);
    var j :| OccursAt(s, p, j);
    assert s[j + k] == s[j..j + |p|][k];
  }

  /** A pattern that does not hold `c` cannot straddle a `c`: it occurs on one side of it. */
  lemma ContainsAcross(a: string, c: char, b: string, p: string)
    requires c !in p
    requires Contains(a + [c] + b, p)
    ensures Contains(a, p) || Contains(b, p)
  {
    var s := a + [c] + b;
    ContainsIff(s, p);
    var j :| OccursAt(s, p, j);
    if j + |p| <= |a| {
      assert a[j..j + |p|] == s[j..j + |p|];
      ContainsWitness(a, p, j);
    } else {
      if j <= |a| {
        WindowChar(s, p, j, |a|);
        assert false;
      }
      assert b[j - |a| - 1..j - |a| - 1 + |p|] == s[j..j + |p|];
      ContainsWitness(b, p, j - |a| - 1);
    }
  }

  lemma NotContainsAcross(a: string, c: char, b: string, p: string)
    requires c !in p && !Contains(a, p) && !Contains(b, p)
    ensures !Contains(a + [c] + b, p)
  {
    if Contains(a + [c] + b, p) {
      ContainsAcross(a, c, b, p);
    }
  }

  lemma NotContainsLonger(s: string, p: string)
    requires |s| < |p|
    ensures !Contains(s, p)
  {
    if Contains(s, p) {
      ContainsShorter(s, p);
    }
  }

  lemma NotContainsMissingChar(s: string, p: string, k: int)
    requires 0 <= k < |p| && p[k] !in s
    ensures !Contains(s, p)
  {
    if Contains(s, p) {
      ContainsCharOf(s, p, k);
    }
  }

  /** Case-insensitive containment, as both the backend and the client write it. */
  predicate ContainsIgnoringCase(s: string, p: string)
  {
    Contains(Lower(s), Lower(p))
  }

  predicate StartsWith(s: string, p: string)
  {
    |p| <= |s| && s[..|p|] == p
  }

  predicate EndsWith(s: string, p: string)
  {
    |p| <= |s| && s[|s| - |p|..] == p
  }

  // ---------------------------------------------------------------------
  // JavaScript String.prototype.slice
  // ---------------------------------------------------------------------

  /** A `slice` argument resolved against a string of length `len`: negative counts from the end. */
  function SliceIndex(len: nat, k: int): (r: nat)
    ensures r <= len
  {
    if k < 0 then (if len + k < 0 then 0 else len + k)
    else if k > len then len
    else k
  }

  /** `s.slice(start, end)`. */
  function Slice(s: string, start: int, end: int): (r: string)
    ensures |r| <= |s|
  {
    var a := SliceIndex(|s|, start);
    var b := SliceIndex(|s|, end);
    if a >= b then "" else s[a..b]
  }

  /** `s.slice(start)`. */
  function SliceFrom(s: string, start: int): string
  {
    Slice(s, start, |s|)
  }

  // ---------------------------------------------------------------------
  // join / split
  // ---------------------------------------------------------------------

  /** `parts.join(sep)`. */
  function Join(parts: seq<string>, sep: string): string
    decreases |parts|
  {
    if |parts| == 0 then ""
    else if |parts| == 1 then parts[0]
    else parts[0] + sep + Join(parts[1..], sep)
  }

  /** `s.split(c)` for a one-character separator: always at least one piece. */
  function Split(s: string, c: char): (r: seq<string>)
    ensures |r| >= 1
    decreases |s|
  {
    if |s| == 0 then [""]
    else if s[0] == c then [""] + Split(s[1..], c)
    else
      var rest := Split(s[1..], c);
      [[s[0]] + rest[0]] + rest[1..]
  }

  lemma {:induction false} SplitNoSeparator(s: string, c: char)
    requires c !in s
    ensures Split(s, c) == [s]
    decreases |s|
  {
    if |s| > 0 {
      SplitNoSeparator(s[1..], c);
      assert [s[0]] + s[1..] == s;
    }
  }

  /** Splitting `a + [c] + b` on `c`, where `a` holds no `c`, peels `a` off as the first piece. */
  lemma {:induction false} SplitCons(a: string, c: char, b: string)
    requires c !in a
    ensures Split(a + [c] + b, c) == [a] + Split(b, c)
    decreases |a|
  {
    if |a| == 0 {
      assert a + [c] + b == [c] + b;
      assert ([c] + b)[1..] == b;
    } else {
      var s := a + [c] + b;
      assert s[0] == a[0];
      assert s[1..] == a[1..] + [c] + b;
      SplitCons(a[1..], c, b);
      assert [a[0]] + a[1..] == a;
    }
  }

  /** Joining pieces that hold no separator and splitting again gives the pieces back. */
  lemma {:induction false} SplitJoin(parts: seq<string>, c: char)
    requires |parts| >= 1
    requires forall i :: 0 <= i < |parts| ==> c !in parts[i]
    ensures Split(Join(parts, [c]), c) == parts
    decreases |parts|
  {
    if |parts| == 1 {
      SplitNoSeparator(parts[0], c);
    } else {
      SplitJoin(parts[1..], c);
      SplitCons(parts[0], c, Join(parts[1..], [c]));
      assert [parts[0]] + parts[1..] == parts;
    }
  }

  // ---------------------------------------------------------------------
  // Decimal numbers
  // ---------------------------------------------------------------------

  predicate IsDigit(c: char)
  {
    '0' <= c <= '9'
  }

  predicate AllDigits(s: string)
  {
    forall i :: 0 <= i < |s| ==> IsDigit(s[i])
  }

  function DigitChar(d: nat): (c: char)
    requires d < 10
    ensures IsDigit(c)
  {
    ('0' as int + d) as char
  }

  /** The decimal representation of `n` (`format!("{}", n)`, template literal `${n}`). */
  function NatToString(n: nat): (r: string)
    ensures |r| >= 1 && AllDigits(r)
    decreases n
  {
    if n < 10 then [DigitChar(n)] else NatToString(n / 10) + [DigitChar(n % 10)]
  }

  /** The decimal representation of an integer, with a leading `-` when negative. */
  function IntToString(i: int): string
  {
    if i < 0 then "-" + NatToString(-i) else NatToString(i)
  }

  /** The value of a string of decimal digits (empty string: 0). */
  function DigitsValue(s: string): nat
    requires AllDigits(s)
    decreases |s|
  {
    if |s| == 0 then 0 else DigitsValue(s[..|s| - 1]) * 10 + (s[|s| - 1] as int - '0' as int)
  }

  lemma {:induction false} DigitsValueOfNatToString(n: nat)
    ensures DigitsValue(NatToString(n)) == n
    decreases n
  {
    if n >= 10 {
      var s := NatToString(n);
      DigitsValueOfNatToString(n / 10);
      assert s[..|s| - 1] == NatToString(n / 10);
    }
  }

  /**
   * JavaScript `Number(s)` restricted to what the model needs: the empty
   * string is 0, a run of decimal digits is its value, and everything else
   * is NaN (`None`).
   */
  function ToNumber(s: string): (r: Option<nat>)
    ensures r.Some? <==> AllDigits(s)
  {
    if AllDigits(s) then Some(DigitsValue(s)) else None
  }

  lemma ToNumberOfNatToString(n: nat)
    ensures ToNumber(NatToString(n)) == Some(n)
  {
    DigitsValueOfNatToString(n);
  }

  lemma NatToStringHasNoChar(n: nat, c: char)
    requires !IsDigit(c)
    ensures c !in NatToString(n)
  {
  }
}
