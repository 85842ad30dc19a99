/** Letter case, on ASCII. */
module Ascii {
  predicate IsUpper(c: char) {
    'A' <= c <= 'Z'
  }

  predicate IsLower(c: char) {
    'a' <= c <= 'z'
  }

  function LowerChar(c: char): char {
    if IsUpper(c) then c - 'A' + 'a' else c
  }

  function UpperChar(c: char): char {
    if IsLower(c) then c - 'a' + 'A' else c
  }

  function UpperAll(s: string): string {
    seq(|s|, i requires 0 <= i < |s| => UpperChar(s[i]))
  }

  function Lower(s: string): (r: string)
    ensures |r| == |s| && forall i :: 0 <= i < |s| ==> r[i] == LowerChar(s[i])
  {
    if s == "" then "" else [LowerChar(s[0])] + Lower(s[1..])
  }

  lemma SameLetter(c: char, d: char)
    ensures UpperChar(c) == UpperChar(d) <==> LowerChar(c) == LowerChar(d)
  {
  }

  /** Comparing in one case is comparing in the other. */
  lemma {:induction false} SameInAnyCase(s: string, t: string)
    ensures UpperAll(s) == UpperAll(t) <==> Lower(s) == Lower(t)
    decreases |s|
  {
    assert |UpperAll(s)| == |s| && |UpperAll(t)| == |t|;
    if |s| == |t| && s != "" {
      SameLetter(s[0], t[0]);
      SameInAnyCase(s[1..], t[1..]);
      UpperCons(s);
      UpperCons(t);
      assert Lower(s) == [LowerChar(s[0])] + Lower(s[1..]) && Lower(t) == [LowerChar(t[0])] + Lower(t[1..]);
      SameCons(UpperChar(s[0]), UpperAll(s[1..]), UpperChar(t[0]), UpperAll(t[1..]));
      SameCons(LowerChar(s[0]), Lower(s[1..]), LowerChar(t[0]), Lower(t[1..]));
    }
  }

  lemma UpperCons(s: string)
    requires s != ""
    ensures UpperAll(s) == [UpperChar(s[0])] + UpperAll(s[1..])
  {
  }

  lemma SameCons(c: char, s: string, d: char, t: string)
    ensures [c] + s == [d] + t <==> c == d && s == t
  {
    if [c] + s == [d] + t {
      assert ([c] + s)[0] == ([d] + t)[0] && ([c] + s)[1..] == ([d] + t)[1..];
    }
  }

  /** A comparison in capitals is one in small letters. */
  lemma InAnyCase(s: string, upper: string, lower: string)
    requires |upper| == |lower|
    requires forall i :: 0 <= i < |upper| ==> UpperChar(upper[i]) == upper[i] && LowerChar(upper[i]) == lower[i]
    ensures UpperAll(s) == upper <==> Lower(s) == lower
  {
    assert UpperAll(upper) == upper && Lower(upper) == lower;
    SameInAnyCase(s, upper);
  }
}
