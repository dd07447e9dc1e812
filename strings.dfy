/** The string operations the source uses, on `seq<char>`: ASCII `toLowerCase`,
    `includes`, `replace(/\D/g, '')` and `split(sep)[0]`. */
module Strings {
  import Lists

  function LowerChar(c: char): char {
    if 'A' <= c <= 'Z' then (c as int + 32) as char else c
  }

  /** `s.toLowerCase()`, restricted to ASCII letters. */
  function LowerCase(s: string): (r: string)
    ensures |r| == |s|
    ensures forall i :: 0 <= i < |s| ==> r[i] == LowerChar(s[i])
  {
    if s == [] then [] else [LowerChar(s[0])] + LowerCase(s[1..])
  }

  /** Lower-casing twice is lower-casing once. */
  lemma LowerCaseIdempotent(s: string)
    ensures LowerCase(LowerCase(s)) == LowerCase(s)
  {
  }

  /** `t` occurs in `s` starting at position `i`. */
  predicate OccursAt(s: string, t: string, i: nat) {
    i + |t| <= |s| && s[i..i + |t|] == t
  }

  /** `s.includes(t)`: `t` is a prefix of `s` or of one of its suffixes. */
  predicate Contains(s: string, t: string)
    decreases |s|
  {
    t <= s || (s != [] && Contains(s[1..], t))
  }

  /** `Contains` agrees with the positional definition of an occurrence. */
  lemma {:induction false} ContainsIffOccurs(s: string, t: string)
    ensures Contains(s, t) <==> exists i: nat :: OccursAt(s, t, i)
    decreases |s|
  {
    if s == [] {
      if exists i: nat :: OccursAt(s, t, i) {
        var i: nat :| OccursAt(s, t, i);
        assert t == [];
      }
      if t == [] {
        assert OccursAt(s, t, 0);
      }
    } else {
      ContainsIffOccurs(s[1..], t);
      if t <= s {
        assert s[0..|t|] == t;
        assert OccursAt(s, t, 0);
      } else if Contains(s[1..], t) {
        var i: nat :| OccursAt(s[1..], t, i);
        assert s[i + 1..i + 1 + |t|] == s[1..][i..i + |t|];
        assert OccursAt(s, t, i + 1);
      }
      if exists i: nat :: OccursAt(s, t, i) {
        var i: nat :| OccursAt(s, t, i);
        if i == 0 {
          assert t <= s;
        } else {
          assert s[1..][i - 1..i - 1 + |t|] == s[i..i + |t|];
          assert OccursAt(s[1..], t, i - 1);
        }
      }
    }
  }

  /** The empty string is contained in every string, as `includes('')` is always true. */
  lemma EmptyContained(s: string)
    ensures Contains(s, "")
  {
  }

  predicate IsDigit(c: char) {
    '0' <= c <= '9'
  }

  /** `s.replace(/\D/g, '')`: only decimal digits remain, and a text of digits alone is
      left as it is. */
  function Digits(s: string): (r: string)
    ensures |r| <= |s|
    ensures forall i :: 0 <= i < |r| ==> IsDigit(r[i])
    ensures (forall i :: 0 <= i < |s| ==> IsDigit(s[i])) ==> r == s
  {
    if forall i :: 0 <= i < |s| ==> IsDigit(s[i]) then
      Lists.FilterKeepsAll(s, IsDigit);
      Lists.Filter(s, IsDigit)
    else
      Lists.Filter(s, IsDigit)
  }

  /** The digits keep their order, and every digit of `s` is kept. */
  lemma DigitsInOrder(s: string)
    ensures Lists.Subseq(Digits(s), s)
    ensures forall i :: 0 <= i < |s| && IsDigit(s[i]) ==> s[i] in Digits(s)
  {
    Lists.FilterSubseq(s, IsDigit);
    forall i | 0 <= i < |s| && IsDigit(s[i])
      ensures s[i] in Digits(s)
    {
      Lists.FilterKeeps(s, IsDigit, s[i]);
    }
  }

  /** Every digit is kept as many times as it occurs, and nothing else is kept. */
  lemma DigitsCount(s: string, c: char)
    ensures multiset(Digits(s))[c] == if IsDigit(c) then multiset(s)[c] else 0
  {
    var other := (x: char) => !IsDigit(x);
    Lists.FilterPartition(s, IsDigit, other);
    if IsDigit(c) {
      assert c !in Lists.Filter(s, other);
    } else {
      assert c !in Digits(s);
    }
  }

  /** `s.split(sep)[0]`: the part of `s` before the first `sep`, or all of `s`. */
  function BeforeFirst(s: string, sep: char): (r: string)
    ensures r <= s
    ensures sep !in r
    ensures |r| < |s| ==> s[|r|] == sep
    ensures sep !in s ==> r == s
  {
    if s == [] || s[0] == sep then [] else [s[0]] + BeforeFirst(s[1..], sep)
  }
}
