/**
 * The pieces of JavaScript's standard library the client relies on: the decimal
 * form of a number (`String(n)`, `n.toString()`), `String.prototype.includes`,
 * `toLowerCase` and `Array.prototype.filter`.
 */
module Strings {

  predicate IsDigit(c: char) {
    '0' <= c <= '9'
  }

  predicate AllDigits(s: string) {
    forall i :: 0 <= i < |s| ==> IsDigit(s[i])
  }

  function DigitChar(d: nat): (c: char)
    requires d < 10
    ensures IsDigit(c) && c as int - '0' as int == d
  {
    ('0' as int + d) as char
  }

  /** The decimal form of a non-negative integer: digits only, no leading zero. */
  function Decimal(n: nat): (s: string)
    ensures |s| >= 1 && AllDigits(s)
    ensures s[0] == '0' <==> n == 0
  {
    if n < 10 then [DigitChar(n)] else Decimal(n / 10) + [DigitChar(n % 10)]
  }

  /** Reads a string of digits back as a number. */
  function ParseDecimal(s: string): nat
    requires AllDigits(s)
  {
    if s == [] then 0
    else ParseDecimal(s[..|s| - 1]) * 10 + (s[|s| - 1] as int - '0' as int)
  }

  lemma {:induction false} ParseDecimalOfDecimal(n: nat)
    ensures ParseDecimal(Decimal(n)) == n
  {
    if n >= 10 {
      var s := Decimal(n);
      assert s[..|s| - 1] == Decimal(n / 10);
      ParseDecimalOfDecimal(n / 10);
    }
  }

  /** Distinct numbers have distinct decimal forms. */
  lemma DecimalInjective(a: nat, b: nat)
    requires Decimal(a) == Decimal(b)
    ensures a == b
  {
    ParseDecimalOfDecimal(a);
    ParseDecimalOfDecimal(b);
  }

  predicate StartsWith(s: string, prefix: string) {
    |prefix| <= |s| && s[..|prefix|] == prefix
  }

  /** `s.includes(sub)`: some position of `s` starts an occurrence of `sub`. */
  predicate Contains(s: string, sub: string)
    decreases |s|
  {
    StartsWith(s, sub) || (|s| > 0 && Contains(s[1..], sub))
  }

  /** `sub` occurs in `s` starting at position `i`. */
  predicate OccursAt(s: string, sub: string, i: int) {
    0 <= i && i + |sub| <= |s| && s[i..i + |sub|] == sub
  }

  /** The search above finds exactly the occurrences a slice comparison finds. */
  lemma {:induction false} ContainsIffOccurs(s: string, sub: string)
    ensures Contains(s, sub) <==> exists i :: OccursAt(s, sub, i)
    decreases |s|
  {
    if StartsWith(s, sub) {
      assert OccursAt(s, sub, 0);
    } else if |s| > 0 {
      ContainsIffOccurs(s[1..], sub);
      if Contains(s[1..], sub) {
        var i :| OccursAt(s[1..], sub, i);
        assert s[1..][i..i + |sub|] == s[i + 1..i + 1 + |sub|];
        assert OccursAt(s, sub, i + 1);
      }
      if i :| OccursAt(s, sub, i) {
        assert i != 0;
        assert s[1..][i - 1..i - 1 + |sub|] == s[i..i + |sub|];
        assert OccursAt(s[1..], sub, i - 1);
      }
    }
  }

  /** The empty string occurs in every string, so an empty search term matches everything. */
  lemma ContainsEmpty(s: string)
    ensures Contains(s, "")
  {
    assert StartsWith(s, "");
  }

  /** `toLowerCase` on one character, for the ASCII letters. */
  function LowerChar(c: char): char {
    if 'A' <= c <= 'Z' then (c as int - 'A' as int + 'a' as int) as char else c
  }

  /** `toLowerCase` on ASCII: capitals become small letters, every other character stays. */
  function Lower(s: string): (r: string)
    ensures |r| == |s|
    ensures forall i :: 0 <= i < |s| ==> !('A' <= r[i] <= 'Z')
    ensures forall i :: 0 <= i < |s| ==>
      if 'A' <= s[i] <= 'Z' then r[i] as int == s[i] as int + 32 else r[i] == s[i]
  {
    seq(|s|, i requires 0 <= i < |s| => LowerChar(s[i]))
  }

  /** Lowercasing twice is lowercasing once. */
  lemma LowerIdempotent(s: string)
    ensures Lower(Lower(s)) == Lower(s)
  {
  }

  /** Strictly increasing. */
  predicate Increasing(s: seq<int>) {
    forall k, l :: 0 <= k < l < |s| ==> s[k] < s[l]
  }

  /** `s.filter(keep)`: the elements that pass, in their original order. */
  function Filter<T(!new)>(s: seq<T>, keep: T -> bool): (r: seq<T>)
    ensures |r| <= |s|
  {
    if s == [] then []
    else (if keep(s[0]) then [s[0]] else []) + Filter(s[1..], keep)
  }

  /** The filter keeps exactly the elements that pass. */
  lemma {:induction false} FilterMembers<T(!new)>(s: seq<T>, keep: T -> bool)
    ensures forall x :: x in Filter(s, keep) <==> x in s && keep(x)
  {
    if s != [] {
      FilterMembers(s[1..], keep);
      assert s == [s[0]] + s[1..];
    }
  }

  /**
   * `r` is `s` with some elements left out and the others in their original
   * order: either `r` is empty, or `s` is not and its head either starts `r`
   * (and the rest of `r` is a subsequence of the rest of `s`) or is left out.
   */
  ghost predicate SubsequenceOf<T>(r: seq<T>, s: seq<T>)
    decreases |s|
  {
    r == [] || (s != [] && ((r[0] == s[0] && SubsequenceOf(r[1..], s[1..])) || SubsequenceOf(r, s[1..])))
  }

  /** The filter keeps the order of the elements it keeps. */
  lemma {:induction false} FilterIsSubsequence<T(!new)>(s: seq<T>, keep: T -> bool)
    ensures SubsequenceOf(Filter(s, keep), s)
  {
    if s != [] {
      FilterIsSubsequence(s[1..], keep);
      var r := Filter(s, keep);
      if keep(s[0]) {
        assert r[0] == s[0] && r[1..] == Filter(s[1..], keep);
      } else {
        assert r == Filter(s[1..], keep);
      }
    }
  }

  /** The filter keeps every passing element as often as it occurs, and drops every other one. */
  lemma {:induction false} FilterCount<T(!new)>(s: seq<T>, keep: T -> bool)
    ensures forall x :: multiset(Filter(s, keep))[x] == if keep(x) then multiset(s)[x] else 0
  {
    if s != [] {
      FilterCount(s[1..], keep);
      assert s == [s[0]] + s[1..];
    }
  }

  /** No element occurs twice. */
  predicate Distinct<T(==)>(s: seq<T>) {
    forall i, j :: 0 <= i < j < |s| ==> s[i] != s[j]
  }

  /** Filtering a sequence without repetitions leaves it without repetitions. */
  lemma {:induction false} FilterDistinct<T(!new)>(s: seq<T>, keep: T -> bool)
    requires Distinct(s)
    ensures Distinct(Filter(s, keep))
  {
    if s != [] {
      FilterDistinct(s[1..], keep);
      FilterMembers(s[1..], keep);
      var tail := Filter(s[1..], keep);
      assert s[0] !in s[1..];
      if keep(s[0]) {
        var r := Filter(s, keep);
        forall i, j | 0 <= i < j < |r|
          ensures r[i] != r[j]
        {
          assert r[j] == tail[j - 1];
          if i > 0 {
            assert r[i] == tail[i - 1];
          } else {
            assert tail[j - 1] in tail;
          }
        }
      }
    }
  }

  /** Every element passes: the filter keeps the sequence whole. */
  lemma {:induction false} FilterAll<T(!new)>(s: seq<T>, keep: T -> bool)
    requires forall x :: x in s ==> keep(x)
    ensures Filter(s, keep) == s
  {
    if s != [] {
      FilterAll(s[1..], keep);
      assert [s[0]] + s[1..] == s;
    }
  }

  /** Filtering an increasing sequence leaves it increasing. */
  lemma {:induction false} FilterIncreasing(s: seq<nat>, keep: nat -> bool)
    requires Increasing(s)
    ensures Increasing(Filter(s, keep))
  {
    if s != [] {
      FilterIncreasing(s[1..], keep);
      FilterMembers(s[1..], keep);
      var tail := Filter(s[1..], keep);
      assert forall x :: x in tail ==> x in s[1..];
      assert forall x :: x in s[1..] ==> s[0] < x;
      var r := Filter(s, keep);
      if keep(s[0]) {
        forall k, l | 0 <= k < l < |r|
          ensures r[k] < r[l]
        {
          assert r[l] == tail[l - 1];
          if k > 0 {
            assert r[k] == tail[k - 1];
          } else {
            assert tail[l - 1] in tail;
          }
        }
      }
    }
  }
}
